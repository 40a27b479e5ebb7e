/** Finalizing a session (`convert_to_mp4`): the raw capture is converted by stream copy into an
    archived video, the channel's streams folder is made, and the chat log is moved next to the
    video, both named after one timestamp.

    `FinalizeAsWritten` follows the source step by step, including two faults: the conversion
    writes into the streams folder before that folder is created, and moving a chat log that was
    never created raises. `Finalize` is the corrected operation that the supervisor uses. */
module Archive {
  import opened Paths
  import opened Storage

  /** The conversion tool: copies the audio and video streams of the raw capture, unmodified, into
      `output`. It writes nothing when the input is missing, when the output's folder does not
      exist, or when the output already exists (the command does not ask it to overwrite). */
  function Convert(fs: FileSystem, input: string, outputDir: string, output: string): (r: FileSystem) {
    if input in fs.files && outputDir in fs.dirs && output !in fs.files then
      fs.(files := fs.files[output := fs.files[input]])
    else fs
  }

  /** `shutil.move`: raises when the source does not exist. */
  function Move(fs: FileSystem, source: string, target: string): (r: Outcome) {
    if source !in fs.files then Raised(NoSuchFile(source), fs)
    else Done(fs.(files := (fs.files - {source})[target := fs.files[source]]))
  }

  /** `os.mkdir` of the streams folder when it is missing: raises when its parent is missing. */
  function MakeStreamsDir(fs: FileSystem, name: string): (r: Outcome) {
    if StreamsDir(name) in fs.dirs then Done(fs)
    else if ChannelDir(name) !in fs.dirs then Raised(NoSuchDirectory(ChannelDir(name)), fs)
    else Done(fs.(dirs := fs.dirs + {StreamsDir(name)}))
  }

  /** Finalizing as the source does it: convert, then make the folder, then move the chat log. */
  function FinalizeAsWritten(fs: FileSystem, name: string, ts: string): (r: Outcome) {
    var converted := Convert(fs, RawCapturePath(name), StreamsDir(name), VideoArchivePath(name, ts));
    match MakeStreamsDir(converted, name)
    case Raised(e, at) => Raised(e, at)
    case Done(made) => Move(made, ChatLogPath(name), ChatArchivePath(name, ts))
  }

  /** Finalizing in the intended order: make the folder (with its parents), convert, and move the
      chat log when the session produced one. */
  function Finalize(fs: FileSystem, name: string, ts: string): (r: FileSystem) {
    var made := fs.(dirs := fs.dirs + {"channels", ChannelDir(name), StreamsDir(name)});
    var converted := Convert(made, RawCapturePath(name), StreamsDir(name), VideoArchivePath(name, ts));
    match Move(converted, ChatLogPath(name), ChatArchivePath(name, ts))
    case Done(moved) => moved
    case Raised(_, _) => converted
  }

  /** What finalizing leaves behind: the channel's folders, and no other folder, are added; a raw
      capture is left in place and archived, stream for stream, as `<ts>.mp4` unless that file
      already exists; a chat log is moved to `<ts>.txt`, so none is left under `temp/`; an
      archive whose temporary file is missing, or a video archive already present, is left as it
      was; and no other file changes. */
  lemma FinalizeArchives(fs: FileSystem, name: string, ts: string)
    ensures var r := Finalize(fs, name, ts);
      && r.dirs == fs.dirs + {"channels", ChannelDir(name), StreamsDir(name)}
      && (RawCapturePath(name) in fs.files ==>
            && RawCapturePath(name) in r.files
            && r.files[RawCapturePath(name)] == fs.files[RawCapturePath(name)])
      && (RawCapturePath(name) in fs.files && VideoArchivePath(name, ts) !in fs.files ==>
            && VideoArchivePath(name, ts) in r.files
            && r.files[VideoArchivePath(name, ts)] == fs.files[RawCapturePath(name)])
      && (RawCapturePath(name) !in fs.files || VideoArchivePath(name, ts) in fs.files ==>
            SameExcept(fs, r, {ChatArchivePath(name, ts), ChatLogPath(name)}))
      && (ChatLogPath(name) in fs.files ==>
            && ChatArchivePath(name, ts) in r.files
            && r.files[ChatArchivePath(name, ts)] == fs.files[ChatLogPath(name)])
      && (ChatLogPath(name) !in fs.files ==>
            SameExcept(fs, r, {VideoArchivePath(name, ts)}))
      && ChatLogPath(name) !in r.files
      && SameExcept(fs, r, {VideoArchivePath(name, ts), ChatArchivePath(name, ts), ChatLogPath(name)})
  {
    SessionFilesDistinct(name, name, ts, ts);
  }

  /** The archived video exists after finalizing exactly when a raw capture existed (or the
      same archive was already there), and the archived chat log exactly when a chat log did. */
  lemma FinalizeArtifacts(fs: FileSystem, name: string, ts: string)
    ensures VideoArchivePath(name, ts) in Finalize(fs, name, ts).files
        <==> RawCapturePath(name) in fs.files || VideoArchivePath(name, ts) in fs.files
    ensures ChatArchivePath(name, ts) in Finalize(fs, name, ts).files
        <==> ChatLogPath(name) in fs.files || ChatArchivePath(name, ts) in fs.files
  {
    SessionFilesDistinct(name, name, ts, ts);
  }

  /** Where the folders already exist and the session produced a chat log, the source's order
      and the corrected order finalize the same way. */
  lemma AsWrittenAgreesWhenPrepared(fs: FileSystem, name: string, ts: string)
    requires "channels" in fs.dirs && ChannelDir(name) in fs.dirs && StreamsDir(name) in fs.dirs
    requires ChatLogPath(name) in fs.files
    ensures FinalizeAsWritten(fs, name, ts) == Done(Finalize(fs, name, ts))
  {
    SessionFilesDistinct(name, name, ts, ts);
    assert fs.dirs + {"channels", ChannelDir(name), StreamsDir(name)} == fs.dirs;
  }

  /** The first session of a channel loses its video: the streams folder does not exist yet when
      the conversion runs, so no archived video appears, although a raw capture exists. */
  lemma FirstSessionLosesVideo(fs: FileSystem, name: string, ts: string)
    requires StreamsDir(name) !in fs.dirs
    requires VideoArchivePath(name, ts) !in fs.files
    requires RawCapturePath(name) in fs.files
    ensures VideoArchivePath(name, ts) !in FinalizeAsWritten(fs, name, ts).fs.files
    ensures VideoArchivePath(name, ts) in Finalize(fs, name, ts).files
  {
    SessionFilesDistinct(name, name, ts, ts);
  }

  /** A session during which nobody chatted has no chat log (the log is created by the first
      write), so the source's finalize raises at the move, after the conversion and the folder
      creation have taken effect; the corrected one completes and still archives the video. */
  lemma SilentSessionRaises(fs: FileSystem, name: string, ts: string)
    requires ChatLogPath(name) !in fs.files
    ensures FinalizeAsWritten(fs, name, ts).Raised?
    ensures var at := FinalizeAsWritten(fs, name, ts).fs;
      && (ChannelDir(name) in fs.dirs ==> StreamsDir(name) in at.dirs)
      && (StreamsDir(name) in fs.dirs && RawCapturePath(name) in fs.files && VideoArchivePath(name, ts) !in fs.files ==>
            && VideoArchivePath(name, ts) in at.files
            && at.files[VideoArchivePath(name, ts)] == fs.files[RawCapturePath(name)])
    ensures RawCapturePath(name) in fs.files && VideoArchivePath(name, ts) !in fs.files ==>
              Finalize(fs, name, ts).files[VideoArchivePath(name, ts)] == fs.files[RawCapturePath(name)]
  {
    SessionFilesDistinct(name, name, ts, ts);
  }

  /** A concrete first session of `alice`: her folder exists, her streams folder does not, and
      both temporary files exist. The source archives the chat log but no video. */
  lemma FirstSessionExample()
    ensures var fs := FileSystem({"temp", "channels", "channels/alice"},
                                 map["temp/alice.ts" := [Media([1, 2, 3])],
                                     "temp/alice.txt" := [Line(ChatRecord("#alice", "bob", "hi", "t0"))]]);
      && FinalizeAsWritten(fs, "alice", "t1").Done?
      && "channels/alice/streams/t1.txt" in FinalizeAsWritten(fs, "alice", "t1").fs.files
      && "channels/alice/streams/t1.mp4" !in FinalizeAsWritten(fs, "alice", "t1").fs.files
      && "channels/alice/streams/t1.mp4" in Finalize(fs, "alice", "t1").files
      && Finalize(fs, "alice", "t1").files["channels/alice/streams/t1.mp4"] == [Media([1, 2, 3])]
  {
    var fs := FileSystem({"temp", "channels", "channels/alice"},
                         map["temp/alice.ts" := [Media([1, 2, 3])],
                             "temp/alice.txt" := [Line(ChatRecord("#alice", "bob", "hi", "t0"))]]);
    assert StreamsDir("alice") == "channels/alice/streams";
    assert ChannelDir("alice") == "channels/alice";
    assert VideoArchivePath("alice", "t1") == "channels/alice/streams/t1.mp4";
    assert ChatArchivePath("alice", "t1") == "channels/alice/streams/t1.txt";
    assert RawCapturePath("alice") == "temp/alice.ts";
    assert ChatLogPath("alice") == "temp/alice.txt";
    FirstSessionLosesVideo(fs, "alice", "t1");
    FinalizeArchives(fs, "alice", "t1");
  }
}
