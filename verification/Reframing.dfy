/** Audio arriving in pieces of any length, cut into frames of one length: the frames depend
    on the bytes only, never on how they were cut on the way. */
module Reframing {
  import opened Wire

  /** 20 ms of 24 kHz mono audio, two bytes to a sample. */
  const FRAME_BYTES: nat := 960

  /** The whole frames at the beginning of a byte stream. */
  function Frames(bytes: Pcm): (r: seq<Pcm>)
    ensures forall f <- r :: |f| == 960
  {
    if |bytes| < FRAME_BYTES then [] else [bytes[..FRAME_BYTES]] + Frames(bytes[FRAME_BYTES..])
  }

  /** What is left after them. */
  function Rest(bytes: Pcm): (r: Pcm)
    ensures |r| < 960
  {
    if |bytes| < FRAME_BYTES then bytes else Rest(bytes[FRAME_BYTES..])
  }

  function Concat(pieces: seq<Pcm>): Pcm {
    if pieces == [] then [] else Concat(pieces[..|pieces| - 1]) + pieces[|pieces| - 1]
  }

  lemma {:induction false} ConcatFirst(pieces: seq<Pcm>)
    requires pieces != []
    ensures Concat(pieces) == pieces[0] + Concat(pieces[1..])
  {
    if |pieces| > 1 {
      ConcatFirst(pieces[..|pieces| - 1]);
      assert pieces[1..][..|pieces| - 2] == pieces[..|pieces| - 1][1..];
    }
  }

  /** Nothing is lost: the frames and the rest are the stream. */
  lemma {:induction false} FramesAndRest(bytes: Pcm)
    ensures Concat(Frames(bytes)) + Rest(bytes) == bytes
  {
    if |bytes| >= FRAME_BYTES {
      FramesAndRest(bytes[FRAME_BYTES..]);
      ConcatFirst(Frames(bytes));
    }
  }

  /** Cutting a longer stream goes on from the rest. */
  lemma {:induction false} FramesGoOn(bytes: Pcm, more: Pcm)
    ensures Frames(bytes + more) == Frames(bytes) + Frames(Rest(bytes) + more)
    ensures Rest(bytes + more) == Rest(Rest(bytes) + more)
  {
    if |bytes| >= FRAME_BYTES {
      FramesGoOn(bytes[FRAME_BYTES..], more);
      assert (bytes + more)[..FRAME_BYTES] == bytes[..FRAME_BYTES];
      assert (bytes + more)[FRAME_BYTES..] == bytes[FRAME_BYTES..] + more;
    }
  }

  /** The frames that more bytes complete. */
  function NewFrames(before: Pcm, more: Pcm): seq<Pcm> {
    FramesGoOn(before, more);
    Frames(before + more)[|Frames(before)|..]
  }

  type Key = (Uuid, Uuid)

  /** One frame on its way out. */
  datatype Sent = Sent(utterance: Uuid, stream: Uuid, sequence: nat, eventSequence: nat, providerNs: nat, pcm: Pcm)

  /** Frames numbered on from what was sent before. */
  function Numbered(frames: seq<Pcm>, u: Uuid, stream: Uuid, sequence: nat, eventSequence: nat,
        now: nat): (r: seq<Sent>)
    ensures |r| == |frames|
  {
    seq(|frames|, i requires 0 <= i < |frames| =>
      Sent(u, stream, sequence + i, eventSequence + i, now, frames[i]))
  }

  function Get<K, V>(m: map<K, V>, k: K, otherwise: V): V {
    if k in m then m[k] else otherwise
  }

  function WholeFrames(length: nat): (n: nat)
    ensures n <= length
  {
    length - length % FRAME_BYTES
  }

  /** What is kept of an utterance is what its stream asks for. */
  predicate Consistent(sequence: nat, remainder: Pcm, bytes: Pcm) {
    sequence == |Frames(bytes)| && remainder == Rest(bytes)
  }

  ghost predicate AllConsistent(sequences: map<Key, nat>, remainders: map<Key, Pcm>, streams: map<Key, Pcm>) {
    forall k: Key :: Consistent(Get(sequences, k, 0), Get(remainders, k, []), Get(streams, k, []))
  }

  /** One utterance's bookkeeping can be brought up to date on its own. */
  lemma ConsistentWith(sequences: map<Key, nat>, remainders: map<Key, Pcm>, streams: map<Key, Pcm>,
                       k: Key, sequence: nat, remainder: Pcm, bytes: Pcm)
    requires AllConsistent(sequences, remainders, streams) && Consistent(sequence, remainder, bytes)
    ensures AllConsistent(sequences[k := sequence], remainders[k := remainder], streams[k := bytes])
  {
    hide Frames, Rest;
    var (s1, r1, b1) := (sequences[k := sequence], remainders[k := remainder], streams[k := bytes]);
    forall x: Key
      ensures Consistent(Get(s1, x, 0), Get(r1, x, []), Get(b1, x, []))
    {
      assert Consistent(Get(sequences, x, 0), Get(remainders, x, []), Get(streams, x, []));
    }
  }

  class OpenAIRealtimeAdapter {
    var audioSequences: map<Key, nat>
    var audioRemainders: map<Key, Pcm>
    var eventSequences: map<Uuid, nat>
    /** All the bytes received so far, per utterance. */
    ghost var streams: map<Key, Pcm>

    ghost predicate Valid()
      reads this
    {
      AllConsistent(audioSequences, audioRemainders, streams)
    }

    constructor ()
      ensures Valid() && streams == map[] && eventSequences == map[]
    {
      audioSequences, audioRemainders, eventSequences, streams := map[], map[], map[], map[];
    }

    method NextEventSequence(session: Uuid) returns (n: nat)
      modifies this`eventSequences
      ensures n == old(Get(eventSequences, session, 0)) + 1
      ensures eventSequences == old(eventSequences)[session := n]
    {
      n := Get(eventSequences, session, 0) + 1;
      eventSequences := eventSequences[session := n];
    }

    /** A piece of audio, or one that cannot be decoded, which changes nothing. */
    method MapAudioDelta(session: Uuid, u: Uuid, stream: Uuid, delta: Option<Pcm>, now: nat)
          returns (sent: Option<seq<Sent>>)
      requires Valid()
      modifies this
      ensures Valid()
      ensures sent.Some? <==> delta.Some?
      ensures sent.None? ==> streams == old(streams) && eventSequences == old(eventSequences)
      ensures sent.Some? ==>
                var before := old(Get(streams, (session, u), []));
                && streams == old(streams)[(session, u) := before + delta.value]
                && sent.value == Numbered(NewFrames(before, delta.value), u, stream, |Frames(before)|,
                                          old(Get(eventSequences, session, 0)) + 1, now)
                && Get(eventSequences, session, 0) == old(Get(eventSequences, session, 0)) + |sent.value|
                && forall other :: other != session ==>
                      Get(eventSequences, other, 0) == old(Get(eventSequences, other, 0))
    {
      hide AllConsistent, NewFrames, Numbered, Frames, Consistent;
      if delta.None? {
        return None;
      }
      var events := MapAudio(session, u, stream, delta.value, now);
      sent := Some(events);
    }

    /** What goes out is the frames of the whole stream that have not gone out yet, numbered on. */
    method MapAudio(session: Uuid, u: Uuid, stream: Uuid, pcm: Pcm, now: nat) returns (sent: seq<Sent>)
      requires Valid()
      modifies this
      ensures Valid()
      ensures var before := old(Get(streams, (session, u), []));
              && streams == old(streams)[(session, u) := before + pcm]
              && sent == Numbered(NewFrames(before, pcm), u, stream, |Frames(before)|,
                                  old(Get(eventSequences, session, 0)) + 1, now)
      ensures Get(eventSequences, session, 0) == old(Get(eventSequences, session, 0)) + |sent|
      ensures forall other :: other != session ==> Get(eventSequences, other, 0) == old(Get(eventSequences, other, 0))
    {
      hide Frames, Rest, Numbered, WholeFrames;
      var k := (session, u);
      ghost var before := Get(streams, k, []);
      assert Consistent(Get(audioSequences, k, 0), Get(audioRemainders, k, []), before);
      hide AllConsistent;
      var sequence := Get(audioSequences, k, 0);
      var combined := Get(audioRemainders, k, []) + pcm;
      assert sequence == |Frames(before)|;
      FramesGoOn(before, pcm);
      assert NewFrames(before, pcm) == Frames(combined);
      var completeBytes := WholeFrames(|combined|);
      CompleteIs(combined, completeBytes);
      var complete := combined[..completeBytes];
      assert |complete| == completeBytes;
      sent := Cut(session, u, stream, complete, sequence, now);
      ConsistentWith(audioSequences, audioRemainders, streams, k, sequence + |sent|, combined[completeBytes..],
          before + pcm);
      audioRemainders := audioRemainders[k := combined[completeBytes..]];
      audioSequences := audioSequences[k := sequence + |sent|];
      streams := streams[k := before + pcm];
    }

    /** The loop over the complete bytes, frame by frame. */
    method Cut(session: Uuid, u: Uuid, stream: Uuid, complete: Pcm, first: nat, now: nat) returns (events: seq<Sent>)
      requires WholeFrames(|complete|) == |complete|
      modifies this`eventSequences
      ensures events == Numbered(Frames(complete), u, stream, first, old(Get(eventSequences, session, 0)) + 1, now)
      ensures Get(eventSequences, session, 0) == old(Get(eventSequences, session, 0)) + |events|
      ensures forall other :: other != session ==> Get(eventSequences, other, 0) == old(Get(eventSequences, other, 0))
    {
      hide Frames, WholeFrames;
      CompleteIs(complete, |complete|);
      var count := |complete| / FRAME_BYTES;
      events := [];
      ghost var next := Get(eventSequences, session, 0) + 1;
      for i := 0 to count
        invariant |events| == i && |Frames(complete)| == count
        invariant events == Numbered(Frames(complete)[..i], u, stream, first, next, now)
        invariant Get(eventSequences, session, 0) == old(Get(eventSequences, session, 0)) + i
        invariant forall other :: other != session ==>
                    Get(eventSequences, other, 0) == old(Get(eventSequences, other, 0))
      {
        var offset := i * FRAME_BYTES;
        FrameAt(complete, i, offset);
        var n := NextEventSequence(session);
        events := events + [Sent(u, stream, first + i, n, now, complete[offset..offset + FRAME_BYTES])];
      }
      assert Frames(complete)[..count] == Frames(complete);
    }
  }

  lemma WholeFramesAgain(n: nat)
    ensures WholeFrames(WholeFrames(n)) == WholeFrames(n)
    ensures n < FRAME_BYTES ==> WholeFrames(n) == 0
    ensures n >= FRAME_BYTES ==> FRAME_BYTES <= WholeFrames(n) == WholeFrames(n - FRAME_BYTES) + FRAME_BYTES
  {}

  /** The whole frames end where less than a frame is left. */
  lemma {:induction false} CompleteIs(bytes: Pcm, n: nat)
    requires n == WholeFrames(|bytes|)
    ensures WholeFrames(n) == n
    ensures n == |Frames(bytes)| * FRAME_BYTES && Rest(bytes) == bytes[n..] && Frames(bytes[..n]) == Frames(bytes)
  {
    hide WholeFrames;
    WholeFramesAgain(|bytes|);
    var whole := bytes[..n];
    if |bytes| < FRAME_BYTES {
      assert Frames(whole) == [] == Frames(bytes);
    } else {
      var rest := bytes[FRAME_BYTES..];
      CompleteIs(rest, n - FRAME_BYTES);
      assert Frames(bytes) == [bytes[..FRAME_BYTES]] + Frames(rest);
      assert Rest(bytes) == Rest(rest);
      assert Frames(whole) == [whole[..FRAME_BYTES]] + Frames(whole[FRAME_BYTES..]);
      hide Frames, Rest;
      assert whole[..FRAME_BYTES] == bytes[..FRAME_BYTES];
      assert whole[FRAME_BYTES..] == rest[..n - FRAME_BYTES];
    }
  }

  lemma {:induction false} FrameAt(bytes: Pcm, i: nat, at: nat)
    requires at == i * FRAME_BYTES && at + FRAME_BYTES <= |bytes|
    ensures i < |Frames(bytes)| && Frames(bytes)[i] == bytes[at..at + FRAME_BYTES]
    decreases i
  {
    var rest := bytes[FRAME_BYTES..];
    assert Frames(bytes) == [bytes[..FRAME_BYTES]] + Frames(rest);
    if i > 0 {
      FrameAt(rest, i - 1, at - FRAME_BYTES);
      hide Frames;
      assert Frames(bytes)[i] == Frames(rest)[i - 1];
      assert rest[at - FRAME_BYTES..at] == bytes[at..at + FRAME_BYTES];
    }
  }

  // ---- Any two ways of cutting the stream ----

  /** What goes out when the pieces come one after the other: the frames, and what is left. */
  function Fed(pieces: seq<Pcm>): (seq<Pcm>, Pcm) {
    if pieces == [] then ([], [])
    else
      var (frames, rest) := Fed(pieces[..|pieces| - 1]);
      var combined := rest + pieces[|pieces| - 1];
      (frames + Frames(combined), Rest(combined))
  }

  lemma {:induction false} FedIsFramed(pieces: seq<Pcm>)
    ensures Fed(pieces) == (Frames(Concat(pieces)), Rest(Concat(pieces)))
  {
    if pieces != [] {
      var earlier := pieces[..|pieces| - 1];
      FedIsFramed(earlier);
      FramesGoOn(Concat(earlier), pieces[|pieces| - 1]);
    }
  }

  /** Two ways of cutting one stream give the same frames and leave the same rest, and
      nothing is lost either way. */
  lemma ChunkingDoesNotMatter(a: seq<Pcm>, b: seq<Pcm>)
    requires Concat(a) == Concat(b)
    ensures Fed(a) == Fed(b) && Concat(Fed(a).0) + Fed(a).1 == Concat(a) && |Fed(a).1| < FRAME_BYTES
  {
    FedIsFramed(a);
    FedIsFramed(b);
    FramesAndRest(Concat(a));
  }
}
