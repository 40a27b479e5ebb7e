/** The chat side of a recording: every message the subscription delivers is turned into one
    record and appended, as one line, to the session's chat log. */
module Chat {
  import opened Storage

  /** A chat message as the subscription delivers it. */
  datatype Message = Message(channel: string, sender: string, text: string)

  /** The record written for a message received at time `now`. */
  function MakeRecord(m: Message, now: string): (r: ChatRecord) {
    ChatRecord(m.channel, m.sender, m.text, now)
  }

  /** Appends the record of `m` to the file at `path`, creating the file if it does not exist. */
  function WriteMessage(fs: FileSystem, path: string, m: Message, now: string): (r: FileSystem)
    ensures r.dirs == fs.dirs
    ensures path in r.files
    ensures |Contents(r, path)| == |Contents(fs, path)| + 1
    ensures Contents(r, path)[..|Contents(fs, path)|] == Contents(fs, path)
    ensures Contents(r, path)[|Contents(fs, path)|] == Line(ChatRecord(m.channel, m.sender, m.text, now))
    ensures SameExcept(fs, r, {path})
  {
    fs.(files := fs.files[path := Contents(fs, path) + [Line(MakeRecord(m, now))]])
  }

  /** Delivery of several messages, in arrival order, each with the time it was received. */
  function WriteAll(fs: FileSystem, path: string, arrivals: seq<(Message, string)>): (r: FileSystem)
    decreases |arrivals|
  {
    if arrivals == [] then fs
    else WriteAll(WriteMessage(fs, path, arrivals[0].0, arrivals[0].1), path, arrivals[1..])
  }

  /** The lines the given arrivals produce, in the same order. */
  function Lines(arrivals: seq<(Message, string)>): (r: seq<Chunk>)
    ensures |r| == |arrivals|
  {
    if arrivals == [] then [] else [Line(MakeRecord(arrivals[0].0, arrivals[0].1))] + Lines(arrivals[1..])
  }

  /** The log holds what it held before followed by one line per message, in arrival order;
      no other file changes. */
  lemma {:induction false} WriteAllAppendsInOrder(fs: FileSystem, path: string, arrivals: seq<(Message, string)>)
    ensures Contents(WriteAll(fs, path, arrivals), path) == Contents(fs, path) + Lines(arrivals)
    ensures WriteAll(fs, path, arrivals).dirs == fs.dirs
    ensures SameExcept(fs, WriteAll(fs, path, arrivals), {path})
    decreases |arrivals|
  {
    if arrivals != [] {
      var next := WriteMessage(fs, path, arrivals[0].0, arrivals[0].1);
      WriteAllAppendsInOrder(next, path, arrivals[1..]);
      var before := Contents(fs, path);
      assert Contents(next, path) == before + [Lines(arrivals)[0]] by {
        assert Contents(next, path) == Contents(next, path)[..|before|] + [Contents(next, path)[|before|]];
      }
      assert Lines(arrivals) == [Lines(arrivals)[0]] + Lines(arrivals[1..]);
      assert before + [Lines(arrivals)[0]] + Lines(arrivals[1..]) == before + Lines(arrivals);
    }
  }

  /** Line `|old| + i` of the log is the record `{channel, sender, text, timestamp}` of the
      i-th message, stamped with its arrival time. */
  lemma WriteAllRecords(fs: FileSystem, path: string, arrivals: seq<(Message, string)>)
    ensures |Contents(WriteAll(fs, path, arrivals), path)| == |Contents(fs, path)| + |arrivals|
    ensures forall i :: 0 <= i < |arrivals| ==>
      Contents(WriteAll(fs, path, arrivals), path)[|Contents(fs, path)| + i]
        == Line(ChatRecord(arrivals[i].0.channel, arrivals[i].0.sender, arrivals[i].0.text, arrivals[i].1))
  {
    WriteAllAppendsInOrder(fs, path, arrivals);
    LinesAt(arrivals);
  }

  /** The i-th line is the record of the i-th arrival. */
  lemma {:induction false} LinesAt(arrivals: seq<(Message, string)>)
    ensures forall i :: 0 <= i < |arrivals| ==> Lines(arrivals)[i] == Line(MakeRecord(arrivals[i].0, arrivals[i].1))
    decreases |arrivals|
  {
    if arrivals != [] {
      LinesAt(arrivals[1..]);
      forall i | 0 < i < |arrivals|
        ensures Lines(arrivals)[i] == Line(MakeRecord(arrivals[i].0, arrivals[i].1))
      {
        assert Lines(arrivals)[i] == Lines(arrivals[1..])[i - 1];
      }
    }
  }
}
