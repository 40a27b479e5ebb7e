/** The part of the local file system the recorder touches, as a value: the directories that
    exist and, for each file path, the file's contents. */
module Storage {

  /** One chat record `{channel, sender, text, timestamp}`, as the JSON object written per line. */
  datatype ChatRecord = ChatRecord(channel: string, sender: string, text: string, timestamp: string)

  /** A file's contents are a sequence of chunks: one line holding a chat record (its JSON text
      followed by a newline), or a run of media data written by the capture or conversion tool. */
  datatype Chunk = Line(record: ChatRecord) | Media(data: seq<int>)

  datatype FileSystem = FileSystem(dirs: set<string>, files: map<string, seq<Chunk>>)

  /** The exceptions the file operations raise. */
  datatype FsError = NoSuchFile(path: string) | NoSuchDirectory(path: string)

  /** A file operation either completes with a new file system or raises; a raise carries the
      file system as it was when the exception was raised, with every earlier step's effect. */
  datatype Outcome = Done(fs: FileSystem) | Raised(error: FsError, fs: FileSystem)

  /** What reading a path gives: its contents, or nothing for a file that does not exist. */
  function Contents(fs: FileSystem, path: string): (c: seq<Chunk>) {
    if path in fs.files then fs.files[path] else []
  }

  /** Every file other than the ones listed is as it was. */
  ghost predicate SameExcept(fs: FileSystem, fs': FileSystem, changed: set<string>) {
    forall p :: p !in changed ==>
      && (p in fs'.files <==> p in fs.files)
      && (p in fs.files ==> fs'.files[p] == fs.files[p])
  }
}
