/** The file browser: reading one file under a size limit, and listing the
    immediate children of a directory. The file system and the `file -i`
    and `ls -al` commands are abstract: their outcomes are parameters. */
module FileBrowser {
  import opened Wrappers
  import opened GoStrings
  import opened Protocol
  import opened Paths

  /** The largest file a read returns: 50 MiB. */
  const MaxFileReadSize: int := 50 * 1024 * 1024

  /** The MIME type reported for `path`: the output of `file -i path` with
      the leading `path:` and the surrounding white space removed, or ""
      when the command fails. */
  function MimeType(path: string, fileOutput: Option<string>): string
  {
    match fileOutput
    case None => ""
    case Some(output) => TrimSpace(TrimPrefix(output, path + ":"))
  }

  /** `file -i` prints `path: type` and a newline; the MIME type is the
      `type` part. */
  lemma MimeTypeOfFileOutput(path: string, mime: string)
    requires |mime| > 0 && !IsSpace(mime[0]) && !IsSpace(mime[|mime| - 1])
    ensures MimeType(path, Some(path + ": " + mime + "\n")) == mime
  {
    var output := path + ": " + mime + "\n";
    assert output == (path + ":") + (" " + mime + "\n");
    TrimPrefixOfConcat(path + ":", " " + mime + "\n");
    TrimSpaceStripsPadding(" ", mime, "\n");
  }

  /** How a file read ends. */
  datatype ReadOutcome =
    | StatFailed(statError: ErrorText)
    | TooBig
    | ReadFailed(readError: ErrorText)
    | ReadOk(data: seq<byte>, mimeType: string)

  /** The file read with the limit as a parameter: `stat` is the size or
      the stat error, `content` the bytes or the read error, `fileOutput`
      the output of `file -i` (`None` when it fails). A size equal to the
      limit is accepted. */
  function ReadFile(path: string, limit: int, stat: Result<int>, content: Result<seq<byte>>,
                    fileOutput: Option<string>): (r: ReadOutcome)
    ensures stat.Err? ==> r.StatFailed?
    ensures stat.Ok? && stat.value > limit ==> r == TooBig
    ensures stat.Ok? && stat.value <= limit && content.Err? ==> r.ReadFailed?
    ensures r.ReadOk? <==> stat.Ok? && stat.value <= limit && content.Ok?
    ensures r.ReadOk? ==> r.data == content.value && r.mimeType == MimeType(path, fileOutput)
  {
    match stat
    case Err(e) => StatFailed(e)
    case Ok(size) =>
      if size > limit then TooBig
      else match content
        case Err(e) => ReadFailed(e)
        case Ok(data) => ReadOk(data, MimeType(path, fileOutput))
  }

  /** The message text of each failure. */
  function ReadErrorText(r: ReadOutcome): string
  {
    match r
    case StatFailed(e) => Wrap("stat", e)
    case TooBig => "file too big"
    case ReadFailed(e) => e
    case ReadOk(_, _) => ""
  }

  /** `handleFileRead`: the single result message sent; a failure carries
      only its error, a success the content, the requested path and the
      MIME type. The handler itself never returns an error. */
  function HandleFileRead(msg: FileRead, listenerId: uint32, stat: Result<int>, content: Result<seq<byte>>,
                          fileOutput: Option<string>): (r: Outbound)
    ensures r.listenerId == listenerId && r.spec.FileResult?
    ensures stat.Ok? && stat.value > MaxFileReadSize ==> r.spec.file == FileReadResult([], "", "", "file too big")
    ensures stat.Ok? && stat.value <= MaxFileReadSize && content.Ok? ==>
              r.spec.file == FileReadResult(content.value, msg.path, MimeType(msg.path, fileOutput), "")
    ensures r.spec.file.error == "" <==> stat.Ok? && stat.value <= MaxFileReadSize && content.Ok?
    ensures r.spec.file.error != "" ==> r.spec.file.data == [] && r.spec.file.path == ""
  {
    var outcome := ReadFile(msg.path, MaxFileReadSize, stat, content, fileOutput);
    match outcome
    case ReadOk(data, mime) => Outbound(listenerId, FileResult(FileReadResult(data, msg.path, mime, "")))
    case _ => Outbound(listenerId, FileResult(FileReadResult([], "", "", ReadErrorText(outcome))))
  }

  /** A stat failure is reported with the "stat: " prefix. */
  lemma StatFailureText(msg: FileRead, listenerId: uint32, e: ErrorText, content: Result<seq<byte>>,
                        fileOutput: Option<string>)
    ensures HandleFileRead(msg, listenerId, Err(e), content, fileOutput).spec.file.error == "stat: " + e
  {
  }

  // ---------------------------------------------------------------------
  // Directory listing
  // ---------------------------------------------------------------------

  /** One immediate child of the listed directory, as the walk visits it,
      with the outputs of the two commands run on it (`None` when a command
      fails). */
  datatype Child = Child(name: string, isDir: bool, fileOutput: Option<string>, lsOutput: Option<string>)

  /** The emptiness hack: a directory is reported empty when `ls -al`
      prints fewer than five newline-separated pieces; anything that is not
      a directory, or whose listing fails, is reported empty. */
  function IsEmpty(c: Child): bool
  {
    if c.isDir && c.lsOutput.Some? then |Split(c.lsOutput.value, "\n")| < 5 else true
  }

  /** An `ls -al` of a directory prints a total line, the `.` and `..`
      lines and then one line per entry; the directory is reported empty
      exactly when there is no line after those three. */
  lemma IsEmptyCountsEntries(name: string, fileOutput: Option<string>, lines: seq<string>)
    requires |lines| >= 3
    requires forall i :: 0 <= i < |lines| ==> '\n' !in lines[i]
    ensures IsEmpty(Child(name, true, fileOutput, Some(Terminated(lines, '\n')))) <==> |lines| == 3
  {
    SplitTerminated(lines, '\n');
  }

  /** The entry the walk callback records for a child of `root`; its path
      is the cleaned join the walk passes to the callback. */
  function EntryOf(root: string, c: Child): (e: DirEntry)
  {
    var path := JoinPath(root, c.name);
    DirEntry(c.name, c.isDir, IsEmpty(c), path, MimeType(path, c.fileOutput))
  }

  /** What `filepath.Walk` finds at the requested path: the root cannot be
      read (its `lstat` fails, or listing it as a directory fails), or the
      immediate children of the root in the sorted order the walk visits
      them. A root that is not a directory, a symbolic link included, has
      no children. */
  datatype Walk = RootUnreadable(error: ErrorText) | Listed(children: seq<Child>)

  /** The entries of a listing, one per child, in order. */
  predicate DescribesChildren(root: string, children: seq<Child>, entries: seq<DirEntry>)
  {
    && |entries| == |children|
    && forall i :: 0 <= i < |children| ==>
         var c := children[i];
         var e := entries[i];
         && e.name == c.name && e.isDir == c.isDir
         && e.path == JoinPath(root, c.name)
         && e.mimeType == MimeType(e.path, c.fileOutput)
         && e.isEmpty == IsEmpty(c)
  }

  /** `handleFileReadDir` as the source has it. The walk hands a root
      failure to the callback, and the callback returns nil for the root
      whatever it is given, so the walk itself never fails: an unreadable
      root is answered like an empty directory, with the requested path and
      no error. Otherwise there is one entry per immediate child, in
      order. */
  function HandleFileReadDir(msg: FileReadDir, listenerId: uint32, walk: Walk): (r: Outbound)
    ensures r.listenerId == listenerId && r.spec.DirResult?
    ensures r.spec.dir.path == msg.path && r.spec.dir.error == ""
    ensures walk.RootUnreadable? ==> r.spec.dir.entries == []
    ensures walk.Listed? ==> DescribesChildren(msg.path, walk.children, r.spec.dir.entries)
  {
    var children := if walk.Listed? then walk.children else [];
    var entries := seq(|children|, i requires 0 <= i < |children| => EntryOf(msg.path, children[i]));
    Outbound(listenerId, DirResult(FileReadDirResult(entries, msg.path, "")))
  }

  /** A missing or unreadable directory gets the same answer as an empty
      one. */
  lemma UnreadableLooksEmpty(msg: FileReadDir, listenerId: uint32, e: ErrorText)
    ensures HandleFileReadDir(msg, listenerId, RootUnreadable(e)) == HandleFileReadDir(msg, listenerId, Listed([]))
  {
  }

  /** `handleFileReadDir` as its error branch shows it was meant: a root
      that cannot be read is reported by its error alone. */
  function HandleFileReadDirIntended(msg: FileReadDir, listenerId: uint32, walk: Walk): (r: Outbound)
    ensures r.listenerId == listenerId && r.spec.DirResult?
    ensures walk.RootUnreadable? ==> r.spec.dir == FileReadDirResult([], "", walk.error)
    ensures walk.Listed? ==> r == HandleFileReadDir(msg, listenerId, walk)
  {
    match walk
    case RootUnreadable(e) => Outbound(listenerId, DirResult(FileReadDirResult([], "", e)))
    case Listed(_) => HandleFileReadDir(msg, listenerId, walk)
  }

  /** With the intended handler an error is reported exactly when the root
      cannot be read, so an unreadable directory is told apart from an
      empty one. */
  lemma IntendedReportsUnreadable(msg: FileReadDir, listenerId: uint32, walk: Walk)
    ensures HandleFileReadDirIntended(msg, listenerId, walk).spec.dir.error != "" <==> walk.RootUnreadable?
    ensures walk.RootUnreadable? ==>
              HandleFileReadDirIntended(msg, listenerId, walk) != HandleFileReadDirIntended(msg, listenerId, Listed([]))
  {
  }
}
