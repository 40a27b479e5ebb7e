/** Where the recorder puts things on disk.
    A live session writes its raw capture and its chat log under `temp/`; finalizing the
    session moves both under `channels/<name>/streams/`, named after one timestamp. */
module Paths {

  /** The raw capture the capture tool writes while the channel is live: `temp/<name>.ts`. */
  function RawCapturePath(name: string): (p: string) {
    "temp/" + name + ".ts"
  }

  /** The chat log the subscription appends to while the channel is live: `temp/<name>.txt`. */
  function ChatLogPath(name: string): (p: string) {
    "temp/" + name + ".txt"
  }

  /** The per-channel folder: `channels/<name>`. */
  function ChannelDir(name: string): (p: string) {
    "channels/" + name
  }

  /** The folder that holds a channel's archived sessions: `channels/<name>/streams`. */
  function StreamsDir(name: string): (p: string) {
    ChannelDir(name) + "/streams"
  }

  /** The name shared by both artifacts of one finalized session, without extension. */
  function ArchiveStem(name: string, ts: string): (p: string) {
    StreamsDir(name) + "/" + ts
  }

  /** The archived video: `channels/<name>/streams/<ts>.mp4`. */
  function VideoArchivePath(name: string, ts: string): (p: string) {
    ArchiveStem(name, ts) + ".mp4"
  }

  /** The archived chat log: `channels/<name>/streams/<ts>.txt`. */
  function ChatArchivePath(name: string, ts: string): (p: string) {
    ArchiveStem(name, ts) + ".txt"
  }

  /** Two strings with the same prefix and the same suffix are equal when their middles are. */
  lemma {:induction false} MiddleDetermined(p: string, x: string, y: string, q: string)
    requires p + x + q == p + y + q
    ensures x == y
  {
    var s := p + x + q;
    assert |x| == |y|;
    assert s[|p|..|p| + |x|] == x;
    assert (p + y + q)[|p|..|p| + |y|] == y;
  }

  /** Distinct channels never share a raw capture file or a chat log file. */
  lemma TempPathsInjective(a: string, b: string)
    ensures RawCapturePath(a) == RawCapturePath(b) ==> a == b
    ensures ChatLogPath(a) == ChatLogPath(b) ==> a == b
  {
    if RawCapturePath(a) == RawCapturePath(b) {
      MiddleDetermined("temp/", a, b, ".ts");
    }
    if ChatLogPath(a) == ChatLogPath(b) {
      MiddleDetermined("temp/", a, b, ".txt");
    }
  }

  /** Two sessions of one channel finalized at different times never overwrite each other. */
  lemma ArchivePathsInjective(name: string, t1: string, t2: string)
    ensures VideoArchivePath(name, t1) == VideoArchivePath(name, t2) ==> t1 == t2
    ensures ChatArchivePath(name, t1) == ChatArchivePath(name, t2) ==> t1 == t2
  {
    var p := StreamsDir(name) + "/";
    if VideoArchivePath(name, t1) == VideoArchivePath(name, t2) {
      MiddleDetermined(p, t1, t2, ".mp4");
    }
    if ChatArchivePath(name, t1) == ChatArchivePath(name, t2) {
      MiddleDetermined(p, t1, t2, ".txt");
    }
  }

  /** Both artifacts of one session live in the channel's streams folder and differ only in
      their four-character extension: they share one stem and one timestamp. */
  lemma ArchivePathsShareStem(name: string, ts: string)
    ensures StreamsDir(name) + "/" <= VideoArchivePath(name, ts)
    ensures StreamsDir(name) + "/" <= ChatArchivePath(name, ts)
    ensures |VideoArchivePath(name, ts)| == |ChatArchivePath(name, ts)|
    ensures VideoArchivePath(name, ts)[..|VideoArchivePath(name, ts)| - 4]
         == ChatArchivePath(name, ts)[..|ChatArchivePath(name, ts)| - 4]
         == ArchiveStem(name, ts)
    ensures VideoArchivePath(name, ts) != ChatArchivePath(name, ts)
  {
    var stem := ArchiveStem(name, ts);
    assert VideoArchivePath(name, ts)[..|stem|] == stem;
    assert ChatArchivePath(name, ts)[..|stem|] == stem;
    assert VideoArchivePath(name, ts)[|stem| + 1] == 'm';
    assert ChatArchivePath(name, ts)[|stem| + 1] == 't';
  }

  /** The four files a session touches are four different files, whatever the names and
      timestamps: temporary files start with `t`, archives with `c`; raw capture and chat log,
      and the two archives, differ in their last character. */
  lemma SessionFilesDistinct(n: string, m: string, ts: string, us: string)
    ensures RawCapturePath(n) != ChatLogPath(m)
    ensures RawCapturePath(n) != VideoArchivePath(m, ts)
    ensures RawCapturePath(n) != ChatArchivePath(m, ts)
    ensures ChatLogPath(n) != VideoArchivePath(m, ts)
    ensures ChatLogPath(n) != ChatArchivePath(m, ts)
    ensures VideoArchivePath(n, ts) != ChatArchivePath(m, us)
  {
    assert RawCapturePath(n)[0] == ChatLogPath(n)[0] == 't';
    assert VideoArchivePath(m, ts)[0] == ChatArchivePath(m, ts)[0] == 'c';
    var raw, log := RawCapturePath(n), ChatLogPath(m);
    assert raw[|raw| - 1] == 's' && log[|log| - 1] == 't';
    var video, chat := VideoArchivePath(n, ts), ChatArchivePath(m, us);
    assert video[|video| - 1] == '4' && chat[|chat| - 1] == 't';
  }
}
