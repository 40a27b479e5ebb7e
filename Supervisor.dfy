/** The recording supervisor: the list `live` of channels being recorded and the map `recording`
    from channel to chat subscription, driven by the poll loop's live/offline observations and by
    channel deletion.

    The state is described by the value `State`, and the operations by `Step` (one observation),
    `Sweep` (one poll iteration over the channel list), `Delete` (the deletion request) and
    `Deliver` (the subscription's message callback). The class `Recorder` holds the same state in
    fields and its methods are proved to perform exactly these functions. Calls to outside
    programs and services are recorded, in order, as `Effect`s in a trace. */
module Supervisor {
  import opened Paths
  import opened Storage
  import Chat
  import Archive

  datatype Option<T> = None | Some(value: T)

  /** A chat subscription handle: `id` stands for the handle object's identity. */
  datatype Subscription = Subscription(id: nat, channel: string, output: string)

  /** The calls into outside programs and services. */
  datatype Effect =
    | StartCapture(channel: string, output: string)  // the capture tool is launched
    | StartChat(sub: Subscription)                    // the chat subscription is opened
    | Archived(channel: string, timestamp: string)    // the session is converted and archived
    | Dispose(sub: Subscription)                      // the chat subscription is disposed
    | Unregister(channel: string)                     // the registry row is deleted

  /** One channel's poll result, with the clock reading a finalize would take. */
  datatype Observation = Observation(channel: string, isLive: bool, now: string)

  datatype State = State(
    live: seq<string>,
    recording: map<string, Subscription>,
    nextId: nat,
    disk: FileSystem,
    trace: seq<Effect>)

  /** Why a deletion request fails with a server error. */
  datatype Failure =
    | NotRegistered  // the registry lookup found no row
    | NotLive        // the channel was not in `live`

  /** The reply to a deletion request. */
  datatype Response = Redirect | BadRequest | ServerError(failure: Failure)

  // ---------------------------------------------------------------------------------------------
  // Lists

  /** Python's `list.remove`: drops the first occurrence of `x`. */
  function RemoveFirst(s: seq<string>, x: string): (r: seq<string>) {
    if s == [] then []
    else if s[0] == x then s[1..]
    else [s[0]] + RemoveFirst(s[1..], x)
  }

  /** The list with every occurrence of `x` dropped, the order of the rest kept. */
  function Without(s: seq<string>, x: string): (r: seq<string>) {
    if s == [] then []
    else (if s[0] == x then [] else [s[0]]) + Without(s[1..], x)
  }

  predicate NoDup(s: seq<string>) {
    forall i, j :: 0 <= i < j < |s| ==> s[i] != s[j]
  }

  /** Removing `x` keeps every other element, drops one element when `x` is present, and on a
      list without duplicates leaves neither `x` nor a duplicate. */
  lemma RemoveFirstFacts(s: seq<string>, x: string)
    ensures forall y :: y != x ==> (y in RemoveFirst(s, x) <==> y in s)
    ensures x in s ==> |RemoveFirst(s, x)| == |s| - 1
    ensures NoDup(s) ==> NoDup(RemoveFirst(s, x)) && x !in RemoveFirst(s, x)
    ensures Without(RemoveFirst(s, x), x) == Without(s, x)
  {
    RemoveFirstMembers(s, x);
    if NoDup(s) {
      RemoveFirstNoDup(s, x);
    }
    RemoveFirstWithout(s, x);
  }

  lemma {:induction false} RemoveFirstMembers(s: seq<string>, x: string)
    ensures forall y :: y in RemoveFirst(s, x) ==> y in s
    ensures forall y :: y != x && y in s ==> y in RemoveFirst(s, x)
    ensures x in s ==> |RemoveFirst(s, x)| == |s| - 1
    decreases |s|
  {
    if s != [] && s[0] != x {
      RemoveFirstMembers(s[1..], x);
      assert RemoveFirst(s, x) == [s[0]] + RemoveFirst(s[1..], x);
      assert forall y :: y in s ==> y == s[0] || y in s[1..];
    } else if s != [] {
      assert forall y :: y in s ==> y == s[0] || y in s[1..];
    }
  }

  /** The tail of a list without duplicates has none and does not contain the head. */
  lemma NoDupTail(s: seq<string>)
    requires NoDup(s) && s != []
    ensures NoDup(s[1..]) && s[0] !in s[1..]
  {
    forall i, j | 0 <= i < j < |s[1..]| ensures s[1..][i] != s[1..][j] {
      assert s[1..][i] == s[i + 1] && s[1..][j] == s[j + 1];
    }
    forall k | 0 <= k < |s[1..]| ensures s[1..][k] != s[0] {
      assert s[1..][k] == s[k + 1];
    }
  }

  lemma {:induction false} RemoveFirstNoDup(s: seq<string>, x: string)
    requires NoDup(s)
    ensures NoDup(RemoveFirst(s, x)) && x !in RemoveFirst(s, x)
    decreases |s|
  {
    if s != [] {
      NoDupTail(s);
      if s[0] != x {
        RemoveFirstNoDup(s[1..], x);
        RemoveFirstMembers(s[1..], x);
        var rest := RemoveFirst(s[1..], x);
        var r := [s[0]] + rest;
        assert RemoveFirst(s, x) == r;
        assert s[0] !in rest;
        forall i, j | 0 <= i < j < |r| ensures r[i] != r[j] {
          assert r[j] == rest[j - 1];
          if i > 0 {
            assert r[i] == rest[i - 1];
          }
        }
      }
    }
  }

  lemma {:induction false} RemoveFirstWithout(s: seq<string>, x: string)
    ensures Without(RemoveFirst(s, x), x) == Without(s, x)
    decreases |s|
  {
    if s != [] && s[0] != x {
      RemoveFirstWithout(s[1..], x);
      var rest := RemoveFirst(s[1..], x);
      assert ([s[0]] + rest)[1..] == rest;
    }
  }

  lemma {:induction false} WithoutAppend(a: seq<string>, b: seq<string>, x: string)
    ensures Without(a + b, x) == Without(a, x) + Without(b, x)
    decreases |a|
  {
    if a != [] {
      WithoutAppend(a[1..], b, x);
      assert (a + b)[1..] == a[1..] + b;
    } else {
      assert a + b == b;
    }
  }

  /** Appending `x` changes nothing in the order of the other elements. */
  lemma AppendKeepsOthers(s: seq<string>, x: string)
    ensures Without(s + [x], x) == Without(s, x)
    ensures NoDup(s) && x !in s ==> NoDup(s + [x])
  {
    WithoutAppend(s, [x], x);
    assert Without([x], x) == [];
  }

  // ---------------------------------------------------------------------------------------------
  // Invariants

  /** `live` and `recording` stay in step: `live` lists each recorded channel once, and each
      channel's subscription is its own and writes to its own chat log. */
  ghost predicate Tracked(s: State) {
    && NoDup(s.live)
    && (forall n :: n in s.live <==> n in s.recording)
    && (forall n :: n in s.recording ==> s.recording[n].channel == n && s.recording[n].output == ChatLogPath(n))
  }

  /** Every handle in the trace is numbered below `nextId`, so the next handle is fresh. */
  ghost predicate FreshIds(s: State) {
    forall i :: 0 <= i < |s.trace| && (s.trace[i].StartChat? || s.trace[i].Dispose?) ==> s.trace[i].sub.id < s.nextId
  }

  /** An active handle was opened and has not been disposed. */
  ghost predicate ActiveOpen(s: State) {
    forall n :: n in s.recording ==> StartChat(s.recording[n]) in s.trace && Dispose(s.recording[n]) !in s.trace
  }

  /** No handle is orphaned: every opened one is still active or has been disposed. */
  ghost predicate NoOrphans(s: State) {
    forall i :: 0 <= i < |s.trace| && s.trace[i].StartChat? ==> Active(s, s.trace[i].sub) || Dispose(s.trace[i].sub) in s.trace
  }

  /** Every disposal comes right after the finalize of the same channel. */
  ghost predicate FinalizedBeforeDispose(t: seq<Effect>) {
    forall i :: 0 <= i < |t| && t[i].Dispose? ==> 0 < i && t[i - 1].Archived? && t[i - 1].channel == t[i].sub.channel
  }

  /** No handle is disposed twice. */
  ghost predicate DisposedOnce(t: seq<Effect>) {
    forall i, j :: 0 <= i < j < |t| && t[i].Dispose? && t[j].Dispose? ==> t[i].sub != t[j].sub
  }

  /** The subscription is the one currently held for its channel. */
  ghost predicate Active(s: State, sub: Subscription) {
    sub.channel in s.recording && s.recording[sub.channel] == sub
  }

  /** The trace accounts for every subscription. */
  ghost predicate Accounted(s: State) {
    FreshIds(s) && ActiveOpen(s) && NoOrphans(s) && FinalizedBeforeDispose(s.trace) && DisposedOnce(s.trace)
  }

  ghost predicate Invariant(s: State) {
    Tracked(s) && Accounted(s)
  }

  /** The state the program starts in: nothing recorded, nothing called. */
  function Initial(disk: FileSystem): (s: State)
    ensures Invariant(s)
  {
    State([], map[], 0, disk, [])
  }

  // ---------------------------------------------------------------------------------------------
  // Transitions

  /** A channel goes live: record it, launch the capture, open the chat subscription. */
  function GoLive(s: State, name: string): (t: State) {
    var sub := Subscription(s.nextId, name, ChatLogPath(name));
    s.(live := s.live + [name],
       recording := s.recording[name := sub],
       nextId := s.nextId + 1,
       trace := s.trace + [StartCapture(name, RawCapturePath(name)), StartChat(sub)])
  }

  /** A recorded channel's session ends: drop it from `live`, finalize, pop and dispose its
      subscription. */
  function Teardown(s: State, name: string, now: string): (t: State)
    requires name in s.recording
  {
    s.(live := RemoveFirst(s.live, name),
       disk := Archive.Finalize(s.disk, name, now),
       recording := s.recording - {name},
       trace := s.trace + [Archived(name, now), Dispose(s.recording[name])])
  }

  /** One observation of the poll loop. */
  function Step(s: State, o: Observation): (t: State) {
    if o.isLive && o.channel !in s.live then GoLive(s, o.channel)
    else if o.channel in s.recording && !o.isLive then Teardown(s, o.channel, o.now)
    else s
  }

  /** One poll iteration: the observations of the channel list, in order. */
  function Sweep(s: State, obs: seq<Observation>): (t: State)
    decreases |obs|
  {
    if obs == [] then s else Step(Sweep(s, obs[..|obs| - 1]), obs[|obs| - 1])
  }

  /** A deletion request for `name` (absent when the request carries none); `registered` says
      whether the registry lookup found the channel. */
  function Delete(s: State, name: Option<string>, registered: bool, now: string): (r: (Response, State))
    requires Tracked(s)
  {
    if name.None? || name.value == "" then (BadRequest, s)
    else if !registered then (ServerError(NotRegistered), s)
    else
      var unregistered := s.(trace := s.trace + [Unregister(name.value)]);
      if name.value !in s.live then (ServerError(NotLive), unregistered)
      else (Redirect, Teardown(unregistered, name.value, now))
  }

  /** A message delivered to subscription `sub` at time `now`: written to its chat log when the
      subscription is still active, dropped when it has been disposed. */
  function Deliver(s: State, sub: Subscription, m: Chat.Message, now: string): (t: State) {
    if sub.channel in s.recording && s.recording[sub.channel] == sub then
      s.(disk := Chat.WriteMessage(s.disk, sub.output, m, now))
    else s
  }

  /** The observation changes nothing: a live channel already recorded, or an offline channel
      not recorded. */
  predicate Settled(s: State, o: Observation) {
    && (o.isLive ==> o.channel in s.live)
    && (!o.isLive ==> o.channel !in s.recording)
  }

  // ---------------------------------------------------------------------------------------------
  // One observation

  /** A channel observed live and not yet recorded is appended to `live`; exactly one capture to
      `temp/<name>.ts` and then exactly one subscription writing to `temp/<name>.txt` are started,
      with a fresh handle, and that handle is stored as its entry in `recording`. */
  lemma StepGoesLive(s: State, o: Observation)
    requires Invariant(s)
    requires o.isLive && o.channel !in s.live
    ensures var t := Step(s, o);
      && t.live == s.live + [o.channel]
      && o.channel in t.recording
      && t.recording[o.channel].output == ChatLogPath(o.channel)
      && t.trace == s.trace + [StartCapture(o.channel, RawCapturePath(o.channel)), StartChat(t.recording[o.channel])]
      && StartChat(t.recording[o.channel]) !in s.trace
      && Dispose(t.recording[o.channel]) !in s.trace
      && t.disk == s.disk
  {
    var sub := Step(s, o).recording[o.channel];
    forall i | 0 <= i < |s.trace| ensures s.trace[i] != StartChat(sub) && s.trace[i] != Dispose(sub) {
      if s.trace[i].StartChat? || s.trace[i].Dispose? {
        assert s.trace[i].sub.id < s.nextId == sub.id;
      }
    }
  }

  /** A channel observed offline while recorded: it leaves `live` and `recording`; the trace
      gains exactly the finalize of this channel followed by the disposal of the very handle that
      was stored for it; the disk is the finalized one. */
  lemma StepGoesOffline(s: State, o: Observation)
    requires Invariant(s)
    requires !o.isLive && o.channel in s.recording
    ensures var t := Step(s, o);
      && o.channel !in t.live
      && o.channel !in t.recording
      && |t.live| == |s.live| - 1
      && t.trace == s.trace + [Archived(o.channel, o.now), Dispose(s.recording[o.channel])]
      && t.disk == Archive.Finalize(s.disk, o.channel, o.now)
  {
    RemoveFirstFacts(s.live, o.channel);
  }

  /** An observation changes the state exactly when it is not already settled: repeated live
      observations and offline observations of unrecorded channels are no-ops, and every other
      observation calls something outside. */
  lemma StepNoOp(s: State, o: Observation)
    ensures Step(s, o) == s <==> Settled(s, o)
    ensures !Settled(s, o) ==> |Step(s, o).trace| == |s.trace| + 2
  {
  }

  /** After an observation the channel is settled for it. */
  lemma StepSettles(s: State, o: Observation)
    ensures Settled(Step(s, o), o)
  {
    if !o.isLive && o.channel in s.recording {
      assert o.channel !in Step(s, o).recording;
    }
  }

  /** An observation of one channel leaves every other channel's membership in `live`, its
      entry in `recording`, and the order of the other channels in `live` unchanged. */
  lemma StepFrame(s: State, o: Observation, n: string)
    requires n != o.channel
    ensures var t := Step(s, o);
      && (n in t.live <==> n in s.live)
      && (n in t.recording <==> n in s.recording)
      && (n in s.recording ==> t.recording[n] == s.recording[n])
      && Without(t.live, o.channel) == Without(s.live, o.channel)
  {
    RemoveFirstFacts(s.live, o.channel);
    AppendKeepsOthers(s.live, o.channel);
  }

  /** Every observation keeps `live` and `recording` in step and the trace accounted for. */
  lemma StepPreservesInvariant(s: State, o: Observation)
    requires Invariant(s)
    ensures Invariant(Step(s, o))
  {
    if o.isLive && o.channel !in s.live {
      GoLivePreserves(s, o.channel);
    } else if o.channel in s.recording && !o.isLive {
      TeardownPreserves(s, o.channel, o.now);
    }
  }

  /** Effects other than disposals keep the disposal discipline of a trace. */
  lemma AppendWithoutDispose(t: seq<Effect>, u: seq<Effect>)
    requires FinalizedBeforeDispose(t) && DisposedOnce(t)
    requires forall k :: 0 <= k < |u| ==> !u[k].Dispose?
    ensures FinalizedBeforeDispose(t + u) && DisposedOnce(t + u)
  {
    forall i | |t| <= i < |t + u| ensures !(t + u)[i].Dispose? {
      assert (t + u)[i] == u[i - |t|];
    }
  }

  /** A finalize followed by the disposal of a handle not disposed before keeps the disposal
      discipline of a trace. */
  lemma AppendFinalizeDispose(t: seq<Effect>, name: string, now: string, sub: Subscription)
    requires FinalizedBeforeDispose(t) && DisposedOnce(t)
    requires sub.channel == name && Dispose(sub) !in t
    ensures var t' := t + [Archived(name, now), Dispose(sub)];
      FinalizedBeforeDispose(t') && DisposedOnce(t')
  {
    var t' := t + [Archived(name, now), Dispose(sub)];
    var k := |t|;
    forall i | 0 <= i < |t'| && t'[i].Dispose?
      ensures 0 < i && t'[i - 1].Archived? && t'[i - 1].channel == t'[i].sub.channel
    {
      if i < k {
        assert t'[i] == t[i] && t'[i - 1] == t[i - 1];
      } else {
        assert i == k + 1;
      }
    }
    forall i, j | 0 <= i < j < |t'| && t'[i].Dispose? && t'[j].Dispose?
      ensures t'[i].sub != t'[j].sub
    {
      assert i < k && t'[i] == t[i];
      if j < k {
        assert t'[j] == t[j];
      } else {
        assert t[i] != Dispose(sub);
      }
    }
  }

  lemma GoLivePreserves(s: State, name: string)
    requires Invariant(s)
    requires name !in s.live
    ensures Invariant(GoLive(s, name))
  {
    AppendKeepsOthers(s.live, name);
    GoLiveAccounted(s, name);
  }

  lemma GoLiveAccounted(s: State, name: string)
    requires Accounted(s)
    requires name !in s.recording
    ensures Accounted(GoLive(s, name))
  {
    var t := GoLive(s, name);
    var sub := Subscription(s.nextId, name, ChatLogPath(name));
    var added := [StartCapture(name, RawCapturePath(name)), StartChat(sub)];
    assert t.trace == s.trace + added;
    AppendWithoutDispose(s.trace, added);
    assert Dispose(sub) !in s.trace by {
      forall i | 0 <= i < |s.trace| ensures s.trace[i] != Dispose(sub) {
        if s.trace[i].Dispose? {
          assert s.trace[i].sub.id < s.nextId;
        }
      }
    }
    assert FreshIds(t) by {
      forall i | 0 <= i < |t.trace| && (t.trace[i].StartChat? || t.trace[i].Dispose?)
        ensures t.trace[i].sub.id < t.nextId
      {
        if i < |s.trace| {
          assert t.trace[i] == s.trace[i];
        }
      }
    }
    assert ActiveOpen(t) by {
      forall n | n in t.recording
        ensures StartChat(t.recording[n]) in t.trace && Dispose(t.recording[n]) !in t.trace
      {
        if n == name {
          assert t.trace[|t.trace| - 1] == StartChat(sub);
        } else {
          assert t.recording[n] == s.recording[n];
        }
      }
    }
    assert NoOrphans(t) by {
      forall i | 0 <= i < |t.trace| && t.trace[i].StartChat?
        ensures Active(t, t.trace[i].sub) || Dispose(t.trace[i].sub) in t.trace
      {
        if i < |s.trace| {
          assert t.trace[i] == s.trace[i];
          if Active(s, s.trace[i].sub) {
            assert s.trace[i].sub.channel != name;
          }
        }
      }
    }
  }

  lemma TeardownPreserves(s: State, name: string, now: string)
    requires Invariant(s)
    requires name in s.recording
    ensures Invariant(Teardown(s, name, now))
  {
    RemoveFirstFacts(s.live, name);
    TeardownAccounted(s, name, now);
  }

  lemma TeardownAccounted(s: State, name: string, now: string)
    requires Accounted(s)
    requires Tracked(s) && name in s.recording
    ensures Accounted(Teardown(s, name, now))
  {
    var t := Teardown(s, name, now);
    var sub := s.recording[name];
    var k := |s.trace|;
    assert t.trace[k] == Archived(name, now) && t.trace[k + 1] == Dispose(sub);
    AppendFinalizeDispose(s.trace, name, now, sub);
    assert FreshIds(t) by {
      forall i | 0 <= i < |t.trace| && (t.trace[i].StartChat? || t.trace[i].Dispose?)
        ensures t.trace[i].sub.id < t.nextId
      {
        if i < k {
          assert t.trace[i] == s.trace[i];
        } else {
          assert StartChat(sub) in s.trace;
        }
      }
    }
    assert ActiveOpen(t) by {
      forall n | n in t.recording
        ensures StartChat(t.recording[n]) in t.trace && Dispose(t.recording[n]) !in t.trace
      {
        assert t.recording[n] == s.recording[n] != sub;
      }
    }
    assert NoOrphans(t) by {
      forall i | 0 <= i < |t.trace| && t.trace[i].StartChat?
        ensures Active(t, t.trace[i].sub) || Dispose(t.trace[i].sub) in t.trace
      {
        assert i < k && t.trace[i] == s.trace[i];
      }
    }
  }

  // ---------------------------------------------------------------------------------------------
  // One poll iteration

  lemma {:induction false} SweepPreservesInvariant(s: State, obs: seq<Observation>)
    requires Invariant(s)
    ensures Invariant(Sweep(s, obs))
    decreases |obs|
  {
    if obs != [] {
      SweepPreservesInvariant(s, obs[..|obs| - 1]);
      StepPreservesInvariant(Sweep(s, obs[..|obs| - 1]), obs[|obs| - 1]);
    }
  }

  /** A channel that the iteration does not observe keeps its membership in `live` and its entry
      in `recording`. */
  lemma {:induction false} SweepFrame(s: State, obs: seq<Observation>, n: string)
    requires forall i :: 0 <= i < |obs| ==> obs[i].channel != n
    ensures (n in Sweep(s, obs).live <==> n in s.live)
    ensures (n in Sweep(s, obs).recording <==> n in s.recording)
    ensures n in s.recording ==> Sweep(s, obs).recording[n] == s.recording[n]
    decreases |obs|
  {
    if obs != [] {
      SweepFrame(s, obs[..|obs| - 1], n);
      StepFrame(Sweep(s, obs[..|obs| - 1]), obs[|obs| - 1], n);
    }
  }

  /** The channel list's poll results never disagree about one channel. */
  predicate Consistent(obs: seq<Observation>) {
    forall i, j :: 0 <= i < |obs| && 0 <= j < |obs| && obs[i].channel == obs[j].channel ==>
      obs[i].isLive == obs[j].isLive
  }

  /** After an iteration over consistent poll results every observed channel is settled: the live
      ones are recorded and the offline ones are not. */
  lemma {:induction false} SweepSettles(s: State, obs: seq<Observation>)
    requires Consistent(obs)
    ensures forall i :: 0 <= i < |obs| ==> Settled(Sweep(s, obs), obs[i])
    decreases |obs|
  {
    if obs != [] {
      var init, last := obs[..|obs| - 1], obs[|obs| - 1];
      assert Consistent(init) by {
        forall i, j | 0 <= i < |init| && 0 <= j < |init| && init[i].channel == init[j].channel
          ensures init[i].isLive == init[j].isLive
        {
          assert init[i] == obs[i] && init[j] == obs[j];
        }
      }
      SweepSettles(s, init);
      var t := Sweep(s, init);
      StepSettles(t, last);
      forall i | 0 <= i < |obs| ensures Settled(Sweep(s, obs), obs[i]) {
        if obs[i].channel == last.channel {
          assert obs[i].isLive == last.isLive;
        } else {
          assert obs[i] == init[i];
          StepFrame(t, last, obs[i].channel);
        }
      }
    }
  }

  /** An iteration in which every observation is already settled changes nothing. */
  lemma {:induction false} SweepOfSettled(s: State, obs: seq<Observation>)
    requires forall i :: 0 <= i < |obs| ==> Settled(s, obs[i])
    ensures Sweep(s, obs) == s
    decreases |obs|
  {
    if obs != [] {
      SweepOfSettled(s, obs[..|obs| - 1]);
      StepNoOp(s, obs[|obs| - 1]);
    }
  }

  /** Polling the same results twice starts and stops nothing the second time: no duplicate
      session, no second finalize. */
  lemma SweepIdempotent(s: State, obs: seq<Observation>)
    requires Consistent(obs)
    ensures Sweep(Sweep(s, obs), obs) == Sweep(s, obs)
  {
    SweepSettles(s, obs);
    SweepOfSettled(Sweep(s, obs), obs);
  }

  // ---------------------------------------------------------------------------------------------
  // Deletion

  /** A request without a channel name, and one for a channel the registry lookup does not find,
      leave the state as it was. A request for a registered channel that is not recorded deletes
      the registry row and then fails, with `live` and `recording` unchanged. A request for a
      recorded channel deletes the row, finalizes, then disposes the stored handle, and
      succeeds; the channel is then in neither `live` nor `recording`. */
  lemma DeleteOutcomes(s: State, name: Option<string>, registered: bool, now: string)
    requires Invariant(s)
    ensures var (r, t) := Delete(s, name, registered, now);
      && (name.None? || name.value == "" ==> r == BadRequest && t == s)
      && (name.Some? && name.value != "" && !registered ==> r == ServerError(NotRegistered) && t == s)
      && (name.Some? && name.value != "" && registered && name.value !in s.recording ==>
            && r == ServerError(NotLive)
            && t == s.(trace := s.trace + [Unregister(name.value)]))
      && (name.Some? && name.value != "" && registered && name.value in s.recording ==>
            && r == Redirect
            && name.value !in t.live && name.value !in t.recording
            && t.recording == s.recording - {name.value}
            && Without(t.live, name.value) == Without(s.live, name.value)
            && t.nextId == s.nextId
            && t.trace == s.trace + [Unregister(name.value), Archived(name.value, now), Dispose(s.recording[name.value])]
            && t.disk == Archive.Finalize(s.disk, name.value, now))
  {
    if name.Some? && name.value in s.recording {
      RemoveFirstFacts(s.live, name.value);
    }
  }

  lemma DeletePreservesInvariant(s: State, name: Option<string>, registered: bool, now: string)
    requires Invariant(s)
    ensures Invariant(Delete(s, name, registered, now).1)
  {
    if name.Some? && name.value != "" && registered {
      var u := s.(trace := s.trace + [Unregister(name.value)]);
      assert Invariant(u) by {
        AppendWithoutDispose(s.trace, [Unregister(name.value)]);
        forall i | 0 <= i < |u.trace| && (u.trace[i].StartChat? || u.trace[i].Dispose?)
          ensures u.trace[i].sub.id < u.nextId
        {
          assert i < |s.trace| && u.trace[i] == s.trace[i];
        }
        forall i | 0 <= i < |u.trace| && u.trace[i].StartChat?
          ensures Active(u, u.trace[i].sub) || Dispose(u.trace[i].sub) in u.trace
        {
          assert i < |s.trace| && u.trace[i] == s.trace[i];
        }
      }
      if name.value in s.live {
        TeardownPreserves(u, name.value, now);
      }
    }
  }

  // ---------------------------------------------------------------------------------------------
  // Chat messages

  /** A message for the active subscription of a channel adds exactly one line, its record, at
      the end of that channel's chat log and changes nothing else; a message for any other
      handle changes nothing. */
  lemma DeliverAppends(s: State, sub: Subscription, m: Chat.Message, now: string)
    requires Invariant(s)
    ensures var t := Deliver(s, sub, m, now);
      && t.live == s.live && t.recording == s.recording && t.nextId == s.nextId && t.trace == s.trace
      && t.disk.dirs == s.disk.dirs
      && (Active(s, sub) ==>
            var log := ChatLogPath(sub.channel);
            && Contents(t.disk, log) == Contents(s.disk, log) + [Line(ChatRecord(m.channel, m.sender, m.text, now))]
            && SameExcept(s.disk, t.disk, {log}))
      && (!Active(s, sub) ==> t == s)
  {
    if Active(s, sub) {
      var log := ChatLogPath(sub.channel);
      var d := Chat.WriteMessage(s.disk, log, m, now);
      assert Contents(d, log) == Contents(d, log)[..|Contents(s.disk, log)|] + [Contents(d, log)[|Contents(s.disk, log)|]];
    }
  }

  /** A disposed subscription writes nothing: in any state that keeps the invariant, a message
      delivered to a handle the trace has disposed changes nothing. */
  lemma DisposedWritesNothing(s: State, sub: Subscription, m: Chat.Message, now: string)
    requires Invariant(s)
    requires Dispose(sub) in s.trace
    ensures Deliver(s, sub, m, now) == s
  {
  }

  /** The trace only grows: an observation, a delivery and a deletion request each keep the
      effects already recorded as a prefix. */
  lemma TraceGrows(s: State, o: Observation, sub: Subscription, m: Chat.Message, name: Option<string>, registered: bool, now: string)
    ensures s.trace <= Step(s, o).trace
    ensures Deliver(s, sub, m, now).trace == s.trace
    ensures Tracked(s) ==> s.trace <= Delete(s, name, registered, now).1.trace
  {
  }

  /** A poll iteration keeps the effects already recorded as a prefix of the trace. */
  lemma {:induction false} SweepExtendsTrace(s: State, obs: seq<Observation>)
    ensures s.trace <= Sweep(s, obs).trace
    decreases |obs|
  {
    if obs != [] {
      SweepExtendsTrace(s, obs[..|obs| - 1]);
      TraceGrows(Sweep(s, obs[..|obs| - 1]), obs[|obs| - 1], Subscription(0, "", ""), Chat.Message("", "", ""), None, false, "");
    }
  }

  /** Once a channel's session has ended, its old subscription writes nothing more, whatever
      poll iterations follow, including ones in which the channel goes live again under a new
      subscription. */
  lemma EndedSessionStaysSilent(s: State, o: Observation, obs: seq<Observation>, m: Chat.Message, now: string)
    requires Invariant(s)
    requires !o.isLive && o.channel in s.recording
    ensures var t := Sweep(Step(s, o), obs);
      Deliver(t, s.recording[o.channel], m, now) == t
  {
    var ended := Step(s, o);
    StepPreservesInvariant(s, o);
    SweepPreservesInvariant(ended, obs);
    SweepExtendsTrace(ended, obs);
    assert Dispose(s.recording[o.channel]) in ended.trace;
    DisposedWritesNothing(Sweep(ended, obs), s.recording[o.channel], m, now);
  }

  /** Several messages delivered to one subscription, in arrival order. */
  function DeliverAll(s: State, sub: Subscription, arrivals: seq<(Chat.Message, string)>): (t: State)
    decreases |arrivals|
  {
    if arrivals == [] then s
    else DeliverAll(Deliver(s, sub, arrivals[0].0, arrivals[0].1), sub, arrivals[1..])
  }

  /** Messages delivered to an active subscription are written, in order, to its chat log and
      nowhere else. */
  lemma {:induction false} DeliverAllWrites(s: State, sub: Subscription, arrivals: seq<(Chat.Message, string)>)
    requires Active(s, sub)
    ensures DeliverAll(s, sub, arrivals) == s.(disk := Chat.WriteAll(s.disk, sub.output, arrivals))
    decreases |arrivals|
  {
    if arrivals != [] {
      DeliverAllWrites(Deliver(s, sub, arrivals[0].0, arrivals[0].1), sub, arrivals[1..]);
    }
  }

  /** A whole session: a channel goes live with no chat log left over, its subscription delivers
      some messages, and it goes offline at `t1`. The archived chat log `<t1>.txt` then holds one
      line per message, in arrival order, and nothing else; no chat log is left under `temp/`. */
  lemma SessionChatArchived(s: State, name: string, t0: string, arrivals: seq<(Chat.Message, string)>, t1: string)
    requires Invariant(s)
    requires name !in s.live
    requires ChatLogPath(name) !in s.disk.files
    ensures var started := Step(s, Observation(name, true, t0));
      var chatted := DeliverAll(started, started.recording[name], arrivals);
      var closed := Step(chatted, Observation(name, false, t1));
      && ChatLogPath(name) !in closed.disk.files
      && (arrivals != [] ==>
            && ChatArchivePath(name, t1) in closed.disk.files
            && closed.disk.files[ChatArchivePath(name, t1)] == Chat.Lines(arrivals))
  {
    var started := Step(s, Observation(name, true, t0));
    var sub := started.recording[name];
    assert Active(started, sub) && sub.output == ChatLogPath(name);
    DeliverAllWrites(started, sub, arrivals);
    var chatted := DeliverAll(started, sub, arrivals);
    Chat.WriteAllAppendsInOrder(started.disk, sub.output, arrivals);
    assert Contents(chatted.disk, ChatLogPath(name)) == Chat.Lines(arrivals);
    Archive.FinalizeArchives(chatted.disk, name, t1);
  }

  lemma DeliverPreservesInvariant(s: State, sub: Subscription, m: Chat.Message, now: string)
    requires Invariant(s)
    ensures Invariant(Deliver(s, sub, m, now))
  {
  }

  // ---------------------------------------------------------------------------------------------
  // Teardown as written

  /** The poll loop either carries on with a new state or is ended by an exception, with the
      state as it was when the exception was raised. */
  datatype Run = Continue(state: State) | Crashed(error: FsError, state: State)

  /** A recorded channel's session ends as the source runs it: drop it from `live`, finalize in
      the source's order, and only when that finalize returns pop and dispose the subscription.
      A raise in the finalize ends the loop before the pop. */
  function TeardownAsWritten(s: State, name: string, now: string): (r: Run)
    requires name in s.recording
  {
    var removed := s.(live := RemoveFirst(s.live, name), trace := s.trace + [Archived(name, now)]);
    match Archive.FinalizeAsWritten(s.disk, name, now)
    case Raised(e, at) => Crashed(e, removed.(disk := at))
    case Done(d) =>
      Continue(removed.(disk := d,
                        recording := s.recording - {name},
                        trace := removed.trace + [Dispose(s.recording[name])]))
  }

  /** Where the channel's folders exist and the session produced a chat log, the source's
      teardown carries on exactly as the corrected one. */
  lemma TeardownAsWrittenAgrees(s: State, name: string, now: string)
    requires name in s.recording
    requires "channels" in s.disk.dirs && ChannelDir(name) in s.disk.dirs && StreamsDir(name) in s.disk.dirs
    requires ChatLogPath(name) in s.disk.files
    ensures TeardownAsWritten(s, name, now) == Continue(Teardown(s, name, now))
  {
    Archive.AsWrittenAgreesWhenPrepared(s.disk, name, now);
  }

  /** A session in which nobody chatted ends the poll loop: the move of the missing chat log
      raises after `live.remove`, so the channel has left `live` but is still in `recording`,
      the two no longer agree, and its subscription is never disposed. */
  lemma SilentTeardownStrands(s: State, name: string, now: string)
    requires Invariant(s)
    requires name in s.recording
    requires ChatLogPath(name) !in s.disk.files
    ensures TeardownAsWritten(s, name, now).Crashed?
    ensures var t := TeardownAsWritten(s, name, now).state;
      && name !in t.live
      && name in t.recording
      && !Tracked(t)
      && Dispose(s.recording[name]) !in t.trace
  {
    Archive.SilentSessionRaises(s.disk, name, now);
    RemoveFirstFacts(s.live, name);
    var t := TeardownAsWritten(s, name, now).state;
    assert name in t.recording && name !in t.live;
    assert t.trace == s.trace + [Archived(name, now)];
  }

  /** A deletion request for a recorded channel that got no chat message fails in the source:
      the registry row is already deleted, the move of the missing chat log raises after
      `live.remove`, and the channel is left in `recording` with its subscription undisposed,
      while the poll loop, in another thread, carries on. The corrected `Delete` redirects. */
  lemma SilentDeleteStrands(s: State, name: string, now: string)
    requires Invariant(s)
    requires name in s.recording
    requires ChatLogPath(name) !in s.disk.files
    ensures var u := s.(trace := s.trace + [Unregister(name)]);
      && TeardownAsWritten(u, name, now).Crashed?
      && name !in TeardownAsWritten(u, name, now).state.live
      && name in TeardownAsWritten(u, name, now).state.recording
      && !Tracked(TeardownAsWritten(u, name, now).state)
      && Dispose(s.recording[name]) !in TeardownAsWritten(u, name, now).state.trace
    ensures name != "" ==> Delete(s, Some(name), true, now).0 == Redirect
  {
    assert name in s.live;
    var u := s.(trace := s.trace + [Unregister(name)]);
    Archive.SilentSessionRaises(u.disk, name, now);
    RemoveFirstFacts(u.live, name);
    var t := TeardownAsWritten(u, name, now).state;
    assert name in t.recording && name !in t.live;
    assert t.trace == s.trace + [Unregister(name), Archived(name, now)];
  }

  // ---------------------------------------------------------------------------------------------
  // The supervisor object

  class Recorder {
    var live: seq<string>
    var recording: map<string, Subscription>
    var nextId: nat
    var disk: FileSystem
    ghost var trace: seq<Effect>

    ghost function Abstract(): (s: State)
      reads this
    {
      State(live, recording, nextId, disk, trace)
    }

    ghost predicate Valid()
      reads this
    {
      Invariant(Abstract())
    }

    /** The module's start-up state: `live = []`, `recording = {}`. */
    constructor (disk0: FileSystem)
      ensures Valid()
      ensures Abstract() == Initial(disk0)
    {
      live, recording, nextId, disk, trace := [], map[], 0, disk0, [];
    }

    /** The loop body for one channel. */
    method Observe(o: Observation)
      requires Valid()
      modifies this
      ensures Valid()
      ensures Abstract() == Step(old(Abstract()), o)
    {
      ghost var pre := Abstract();
      StepPreservesInvariant(pre, o);
      if o.isLive && o.channel !in live {
        var sub := Subscription(nextId, o.channel, ChatLogPath(o.channel));
        live, recording, nextId := live + [o.channel], recording[o.channel := sub], nextId + 1;
        trace := trace + [StartCapture(o.channel, RawCapturePath(o.channel)), StartChat(sub)];
        assert Abstract() == GoLive(pre, o.channel);
      } else if o.channel in recording && !o.isLive {
        live := RemoveFirst(live, o.channel);
        disk := Archive.Finalize(disk, o.channel, o.now);
        var sub := recording[o.channel];
        recording := recording - {o.channel};
        trace := trace + [Archived(o.channel, o.now), Dispose(sub)];
        assert Abstract() == Teardown(pre, o.channel, o.now);
      }
    }

    /** One iteration of the poll loop over the channel list. */
    method Tick(obs: seq<Observation>)
      requires Valid()
      modifies this
      ensures Valid()
      ensures Abstract() == Sweep(old(Abstract()), obs)
    {
      for i := 0 to |obs|
        invariant Valid()
        invariant Abstract() == Sweep(old(Abstract()), obs[..i])
      {
        assert obs[..i + 1][..i] == obs[..i];
        Observe(obs[i]);
      }
      assert obs[..|obs|] == obs;
    }

    /** The deletion request. */
    method DeleteChannel(name: Option<string>, registered: bool, now: string) returns (r: Response)
      requires Valid()
      modifies this
      ensures Valid()
      ensures (r, Abstract()) == Delete(old(Abstract()), name, registered, now)
    {
      ghost var expected := Delete(Abstract(), name, registered, now);
      DeletePreservesInvariant(Abstract(), name, registered, now);
      if name.None? || name.value == "" {
        r := BadRequest;
      } else if !registered {
        r := ServerError(NotRegistered);
      } else {
        var channel := name.value;
        trace := trace + [Unregister(channel)];
        ghost var unregistered := Abstract();
        if channel !in live {
          r := ServerError(NotLive);
        } else {
          live := RemoveFirst(live, channel);
          disk := Archive.Finalize(disk, channel, now);
          trace := trace + [Archived(channel, now)];
          var sub := recording[channel];
          recording := recording - {channel};
          trace := trace + [Dispose(sub)];
          r := Redirect;
          assert Abstract() == Teardown(unregistered, channel, now);
        }
      }
      assert (r, Abstract()) == expected;
    }

    /** The subscription's callback for one message. */
    method OnMessage(sub: Subscription, m: Chat.Message, now: string)
      requires Valid()
      modifies this
      ensures Valid()
      ensures Abstract() == Deliver(old(Abstract()), sub, m, now)
    {
      if sub.channel in recording && recording[sub.channel] == sub {
        disk := Chat.WriteMessage(disk, sub.output, m, now);
      }
    }
  }
}
