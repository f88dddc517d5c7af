/** The dnsdist console protocol: sealed, length-prefixed frames over two byte streams. */
module Consoles {
  import opened Basics
  import opened Nonces

  type Text = seq<Byte>
  type SecretKey = seq<Byte>

  /** NaCl's secretbox. */
  datatype SecretBox = SecretBox(
    seal: (Text, Nonce, SecretKey) -> Text,
    open: (Text, Nonce, SecretKey) -> Option<Text>)

  const OVERHEAD := 16

  /** Opening undoes sealing, and only opens what was sealed with the same nonce and key; sealing adds
      16 bytes. */
  ghost predicate Sound(box: SecretBox) {
    && (forall m, c, n, k :: box.open(c, n, k) == Some(m) <==> c == box.seal(m, n, k))
    && (forall m, n, k :: |box.seal(m, n, k)| == |m| + OVERHEAD)
  }

  predicate Fits(m: Text) {
    |m| + OVERHEAD < UINT32
  }

  // ---------- One frame ----------

  function Frame(box: SecretBox, key: SecretKey, nonce: Nonce, m: Text): Text {
    var sealed := box.seal(m, nonce, key);
    PutUint32(|sealed|) + sealed
  }

  /** What a blocking reader makes of the bytes that have arrived. */
  datatype Reading = Waiting | Broken | Got(message: Text, rest: Text)

  function ReadFrame(box: SecretBox, key: SecretKey, nonce: Nonce, stream: Text): Reading {
    if |stream| < 4 || |stream| < 4 + Uint32(stream[..4]) then Waiting
    else
      var end := 4 + Uint32(stream[..4]);
      match box.open(stream[4..end], nonce, key)
      case None => Broken
      case Some(m) => Got(m, stream[end..])
  }

  lemma FrameParts(box: SecretBox, key: SecretKey, nonce: Nonce, m: Text, rest: Text)
    ensures var stream := Frame(box, key, nonce, m) + rest; var sealed := box.seal(m, nonce, key);
            && |stream| == 4 + |sealed| + |rest|
            && Uint32(stream[..4]) == |sealed| % UINT32 <= |sealed|
            && (forall end :: 0 <= end <= |sealed| ==> stream[4..4 + end] == sealed[..end])
            && stream[4 + |sealed|..] == rest
  {
    var sealed := box.seal(m, nonce, key);
    var stream := Frame(box, key, nonce, m) + rest;
    PutThenGet(|sealed|);
    assert stream[..4] == PutUint32(|sealed|);
    assert stream[4..] == sealed + rest;
    forall end | 0 <= end <= |sealed| ensures stream[4..4 + end] == sealed[..end] {
      assert stream[4..4 + end] == stream[4..][..end];
    }
  }

  /** A frame is read back as exactly what was sent, whatever follows it, if and only if its length
      fits into the 32 bits of the prefix; otherwise the connection breaks. */
  lemma FrameReadBackIff(box: SecretBox, key: SecretKey, nonce: Nonce, m: Text, rest: Text)
    requires Sound(box)
    ensures var r := ReadFrame(box, key, nonce, Frame(box, key, nonce, m) + rest);
            if Fits(m) then r == Got(m, rest) else r == Broken || (r.Got? && r != Got(m, rest))
  {
    FrameParts(box, key, nonce, m, rest);
    var sealed := box.seal(m, nonce, key);
    var stream := Frame(box, key, nonce, m) + rest;
    hide Frame, Uint32, PutUint32;
    var end := Uint32(stream[..4]);
    assert stream[4..4 + end] == sealed[..end];
    assert Fits(m) ==> end == |sealed|;
    assert sealed[..|sealed|] == sealed;
    assert box.open(sealed, nonce, key) == Some(m);
  }

  /** Nothing short of a whole frame is read. */
  lemma PartOfFrameWaits(box: SecretBox, key: SecretKey, nonce: Nonce, m: Text, n: nat)
    requires Sound(box) && Fits(m) && n < |Frame(box, key, nonce, m)|
    ensures ReadFrame(box, key, nonce, Frame(box, key, nonce, m)[..n]).Waiting?
  {
    if n >= 4 {
      var f := Frame(box, key, nonce, m);
      FrameParts(box, key, nonce, m, []);
      assert f + [] == f && f[..n][..4] == f[..4];
    }
  }

  // ---------- One direction ----------

  /** Bytes under way, and the nonces of the writer and of the reader. */
  datatype Channel = Channel(wire: Text, wNonce: Nonce, rNonce: Nonce)

  datatype Action = Send(message: Text) | Receive

  /** What happened so far: everything sent, everything received, and whether an open failed. */
  datatype History = History(channel: Channel, sent: seq<Text>, received: seq<Text>, broken: bool)

  function Act(box: SecretBox, key: SecretKey, h: History, a: Action): History {
    var ch := h.channel;
    match a
    case Send(m) =>
      h.(channel := Channel(ch.wire + Frame(box, key, ch.wNonce, m), Incremented(ch.wNonce), ch.rNonce),
         sent := h.sent + [m])
    case Receive =>
      match ReadFrame(box, key, ch.rNonce, ch.wire)
      case Waiting => h
      case Broken => h.(broken := true)
      case Got(m, rest) =>
        h.(channel := Channel(rest, ch.wNonce, Incremented(ch.rNonce)), received := h.received + [m])
  }

  function Run(box: SecretBox, key: SecretKey, h: History, actions: seq<Action>): History {
    if actions == [] then h
    else Act(box, key, Run(box, key, h, actions[..|actions| - 1]), actions[|actions| - 1])
  }

  /** The frames of messages sealed with successive nonces. */
  function Frames(box: SecretBox, key: SecretKey, nonce: Nonce, ms: seq<Text>): Text
    decreases |ms|
  {
    if ms == [] then [] else Frame(box, key, nonce, ms[0]) + Frames(box, key, Incremented(nonce), ms[1..])
  }

  lemma {:induction false} AfterNext(n: Nonce, k: nat)
    ensures After(Incremented(n), k) == After(n, k + 1)
  {
    hide Incremented;
    if k > 0 {
      AfterNext(n, k - 1);
    }
  }

  lemma {:induction false} FramesAppend(box: SecretBox, key: SecretKey, nonce: Nonce, ms: seq<Text>, m: Text)
    ensures Frames(box, key, nonce, ms + [m])
         == Frames(box, key, nonce, ms) + Frame(box, key, After(nonce, |ms|), m)
    decreases |ms|
  {
    hide Frame, Incremented;
    if ms == [] {
      assert Frames(box, key, Incremented(nonce), []) == [];
      assert [m][1..] == [];
    } else {
      FramesAppend(box, key, Incremented(nonce), ms[1..], m);
      AfterNext(nonce, |ms| - 1);
      assert (ms + [m])[1..] == ms[1..] + [m];
    }
  }

  /** The messages received are a beginning of those sent; the rest is on the wire, sealed with the
      nonces that the reader will use next; and the writer is ahead by exactly that many. */
  ghost predicate InStep(box: SecretBox, key: SecretKey, h: History) {
    && !h.broken
    && |h.received| <= |h.sent| && h.received == h.sent[..|h.received|]
    && h.channel.wire == Frames(box, key, h.channel.rNonce, h.sent[|h.received|..])
    && h.channel.wNonce == After(h.channel.rNonce, |h.sent| - |h.received|)
  }

  lemma SendKeepsStep(box: SecretBox, key: SecretKey, h: History, m: Text)
    requires InStep(box, key, h)
    ensures InStep(box, key, Act(box, key, h, Send(m)))
  {
    hide Frame, Frames, Incremented, ReadFrame;
    var n := |h.received|;
    FramesAppend(box, key, h.channel.rNonce, h.sent[n..], m);
    assert (h.sent + [m])[n..] == h.sent[n..] + [m];
  }

  /** Receiving yields the oldest message not yet received, or waits when there is none. */
  lemma ReceiveKeepsStep(box: SecretBox, key: SecretKey, h: History)
    requires Sound(box) && InStep(box, key, h) && forall m :: m in h.sent ==> Fits(m)
    ensures var h' := Act(box, key, h, Receive);
            && InStep(box, key, h')
            && h'.sent == h.sent && |h'.received| == if |h.received| < |h.sent| then |h.received| + 1 else |h.sent|
  {
    var ch, pending := h.channel, h.sent[|h.received|..];
    if pending != [] {
      var n := |h.received|;
      FrameReadBackIff(box, key, ch.rNonce, pending[0], Frames(box, key, Incremented(ch.rNonce), pending[1..]));
      hide Frame, Incremented, ReadFrame, Fits, Sound;
      AfterNext(ch.rNonce, |pending| - 1);
      assert h.received + [pending[0]] == h.sent[..n + 1];
      assert pending[1..] == h.sent[n + 1..];
    }
  }

  function Sends(actions: seq<Action>): seq<Text> {
    if actions == [] then []
    else Sends(actions[..|actions| - 1]) +
         if actions[|actions| - 1].Send? then [actions[|actions| - 1].message] else []
  }

  function Fresh(n: Nonce): History {
    History(Channel([], n, n), [], [], false)
  }

  ghost predicate Counted(n: Nonce, h: History) {
    h.channel.wNonce == After(n, |h.sent|) && h.channel.rNonce == After(n, |h.received|)
  }

  lemma ActKeepsCount(box: SecretBox, key: SecretKey, n: Nonce, h: History, a: Action)
    requires Counted(n, h)
    ensures Counted(n, Act(box, key, h, a))
  {
    hide ReadFrame, Frame, Incremented;
  }

  lemma ActKeepsStep(box: SecretBox, key: SecretKey, h: History, a: Action)
    requires Sound(box) && InStep(box, key, h) && (forall m :: m in h.sent ==> Fits(m))
    ensures InStep(box, key, Act(box, key, h, a))
    ensures Act(box, key, h, a).sent == h.sent + if a.Send? then [a.message] else []
  {
    hide Sound, InStep, ReadFrame, Frame, Incremented;
    if a.Send? {
      SendKeepsStep(box, key, h, a.message);
    } else {
      ReceiveKeepsStep(box, key, h);
    }
  }

  /** However sending and receiving interleave, messages arrive exactly as sent and in order, nothing
      breaks, and both nonces have counted exactly the messages that their side has handled. */
  lemma {:induction false} RunStaysInStep(box: SecretBox, key: SecretKey, n: Nonce, actions: seq<Action>)
    requires Sound(box) && forall m :: m in Sends(actions) ==> Fits(m)
    ensures var h := Run(box, key, Fresh(n), actions);
            && InStep(box, key, h) && Counted(n, h) && h.sent == Sends(actions)
  {
    if actions != [] {
      var init, a := actions[..|actions| - 1], actions[|actions| - 1];
      RunStaysInStep(box, key, n, init);
      hide Sound, InStep, Act, Counted, Fits;
      var h := Run(box, key, Fresh(n), init);
      ActKeepsStep(box, key, h, a);
      ActKeepsCount(box, key, n, h, a);
    }
  }
}
