/**
  Properties of the listener that relate a message to the bytes a sender
  writes: the proxy's side of the protocol is `PlaySoundFrame`, the frame
  writeUTF(tag), writeUTF(uuid), writeUTF(sound), writeFloat(volume),
  writeFloat(pitch) would produce.
*/
module ListenerLemmas {
  import opened Wrappers
  import opened Wire
  import opened Listener

  /** The body of a PLAY_SOUND message as the sender writes it. */
  function PlaySoundBodyBytes(uuid: seq<byte>, name: seq<byte>, volume: Bits32, pitch: Bits32): (r: seq<byte>)
    requires |uuid| <= MaxUtfLength && |name| <= MaxUtfLength
    ensures |r| == 12 + |uuid| + |name|
  {
    EncodeUtf(uuid) + EncodeUtf(name) + EncodeFloatBits(volume) + EncodeFloatBits(pitch)
  }

  /** A whole PLAY_SOUND frame: the tag, then the body. */
  function PlaySoundFrame(tag: seq<byte>, uuid: seq<byte>, name: seq<byte>, volume: Bits32, pitch: Bits32): (r: seq<byte>)
    requires |tag| <= MaxUtfLength && |uuid| <= MaxUtfLength && |name| <= MaxUtfLength
    ensures |r| == 14 + |tag| + |uuid| + |name|
  {
    EncodeUtf(tag) + PlaySoundBodyBytes(uuid, name, volume, pitch)
  }

  /**
    On any other channel the message and the host do not matter: nothing is
    read, looked up, played or logged.
  */
  lemma ForeignChannelReadsNothing(channel: string, message: seq<byte>, host: Host, other: seq<byte>, otherHost: Host)
    requires channel != Channel
    ensures Handle(channel, message, host) == Handle(channel, other, otherHost) == Dispatch(Ignored, [])
  {
  }

  /**
    On a buffer holding a body at |before|, each of the four reads starts
    where the previous one stopped and returns the field that was written.
  */
  lemma {:induction false} BodyFields(before: seq<byte>, uuid: seq<byte>, name: seq<byte>, volume: Bits32, pitch: Bits32, after: seq<byte>)
    requires |uuid| <= MaxUtfLength && |name| <= MaxUtfLength
    ensures var data := before + PlaySoundBodyBytes(uuid, name, volume, pitch) + after;
      var p1 := |before| + 2 + |uuid|;
      var p2 := p1 + 2 + |name|;
      && UtfBytesAt(data, |before|) == Some(Read(uuid, p1))
      && UtfBytesAt(data, p1) == Some(Read(name, p2))
      && FloatBitsAt(data, p2) == Some(Read(volume, p2 + 4))
      && FloatBitsAt(data, p2 + 4) == Some(Read(pitch, p2 + 8))
  {
    var data := before + PlaySoundBodyBytes(uuid, name, volume, pitch) + after;
    var body := PlaySoundBodyBytes(uuid, name, volume, pitch);
    var p0 := |before|;
    var p1 := p0 + 2 + |uuid|;
    var p2 := p1 + 2 + |name|;
    assert data[p0..p0 + |body|] == body;
    assert body[..p1 - p0] == EncodeUtf(uuid);
    assert body[p1 - p0..p2 - p0] == EncodeUtf(name);
    assert body[p2 - p0..p2 - p0 + 4] == EncodeFloatBits(volume);
    assert body[p2 - p0 + 4..] == EncodeFloatBits(pitch);
    assert data[p0..p1] == EncodeUtf(uuid);
    UtfBytesAtEncoded(data, p0, uuid);
    assert data[p1..p2] == EncodeUtf(name);
    UtfBytesAtEncoded(data, p1, name);
    assert data[p2..p2 + 4] == EncodeFloatBits(volume);
    FloatBitsAtEncoded(data, p2, volume);
    assert data[p2 + 4..p2 + 8] == EncodeFloatBits(pitch);
    FloatBitsAtEncoded(data, p2 + 4, pitch);
  }

  /**
    Decoding a written body gives back exactly the four fields, wherever the
    body starts and whatever follows it; the cursor ends just past the pitch.
  */
  lemma {:induction false} DecodePlaySoundRoundTrip(before: seq<byte>, uuid: seq<byte>, name: seq<byte>,
                                                    volume: Bits32, pitch: Bits32, after: seq<byte>, host: Host)
    requires |uuid| <= MaxUtfLength && |name| <= MaxUtfLength
    requires host.decodeUtf(uuid).Some? && host.decodeUtf(name).Some?
    ensures DecodePlaySound(before + PlaySoundBodyBytes(uuid, name, volume, pitch) + after, |before|, host)
         == Some(Read(PlaySoundCommand(host.decodeUtf(uuid).value, host.decodeUtf(name).value, volume, pitch),
                      |before| + 12 + |uuid| + |name|))
  {
    var data := before + PlaySoundBodyBytes(uuid, name, volume, pitch) + after;
    var p1 := |before| + 2 + |uuid|;
    var p2 := p1 + 2 + |name|;
    BodyFields(before, uuid, name, volume, pitch, after);
    assert UtfAt(data, |before|, host) == Some(Read(host.decodeUtf(uuid).value, p1));
    assert UtfAt(data, p1, host) == Some(Read(host.decodeUtf(name).value, p2));
  }

  /**
    A PLAY_SOUND frame on the listener's channel, followed by any bytes at
    all, is handled exactly as its four fields say: the trailing bytes are
    never read.
  */
  lemma {:induction false} FrameRoundTrip(tag: seq<byte>, uuid: seq<byte>, name: seq<byte>,
                                          volume: Bits32, pitch: Bits32, trailing: seq<byte>, host: Host)
    requires |tag| <= MaxUtfLength && |uuid| <= MaxUtfLength && |name| <= MaxUtfLength
    requires host.decodeUtf(tag) == Some(PlaySoundTag)
    requires host.decodeUtf(uuid).Some? && host.decodeUtf(name).Some?
    ensures Handle(Channel, PlaySoundFrame(tag, uuid, name, volume, pitch) + trailing, host)
         == ResolvePlaySound(PlaySoundCommand(host.decodeUtf(uuid).value, host.decodeUtf(name).value, volume, pitch), host)
  {
    var body := PlaySoundBodyBytes(uuid, name, volume, pitch);
    var message := PlaySoundFrame(tag, uuid, name, volume, pitch) + trailing;
    var q1 := 2 + |tag|;
    assert UtfAt(message, 0, host) == Some(Read(PlaySoundTag, q1)) by {
      assert message == [] + EncodeUtf(tag) + (body + trailing);
      UtfRoundTrip([], tag, body + trailing);
    }
    var cmd := PlaySoundCommand(host.decodeUtf(uuid).value, host.decodeUtf(name).value, volume, pitch);
    assert DecodePlaySound(message, q1, host).Some? && DecodePlaySound(message, q1, host).value.value == cmd by {
      assert message == EncodeUtf(tag) + body + trailing;
      DecodePlaySoundRoundTrip(EncodeUtf(tag), uuid, name, volume, pitch, trailing, host);
    }
  }

  /**
    A message whose tag decodes to anything but PLAY_SOUND is answered with
    one warning, whatever follows the tag: no lookup and no play call.
  */
  lemma {:induction false} UnknownTagFrame(tag: seq<byte>, rest: seq<byte>, host: Host)
    requires |tag| <= MaxUtfLength
    requires host.decodeUtf(tag).Some? && host.decodeUtf(tag).value != PlaySoundTag
    ensures Handle(Channel, EncodeUtf(tag) + rest, host) == Dispatch(UnknownTag(host.decodeUtf(tag).value), [Log(Warning)])
  {
    assert EncodeUtf(tag) + rest == [] + EncodeUtf(tag) + rest;
    UtfRoundTrip([], tag, rest);
  }

  /**
    A PLAY_SOUND frame cut short at any byte is a caught decode error, never
    a lookup or a play call: in the tag the outer handler catches it, after
    the tag the PLAY_SOUND handler does. This holds for every host, so a
    body cut short is a decode error even when its UUID text would not parse.
  */
  lemma {:induction false} TruncatedFrame(tag: seq<byte>, uuid: seq<byte>, name: seq<byte>,
                                          volume: Bits32, pitch: Bits32, k: nat, host: Host)
    requires |tag| <= MaxUtfLength && |uuid| <= MaxUtfLength && |name| <= MaxUtfLength
    requires host.decodeUtf(tag) == Some(PlaySoundTag)
    requires k < |PlaySoundFrame(tag, uuid, name, volume, pitch)|
    ensures Handle(Channel, PlaySoundFrame(tag, uuid, name, volume, pitch)[..k], host)
         == Dispatch(DecodeError(if k < 2 + |tag| then Envelope else PlaySoundBody), [Log(Severe)])
  {
    var frame := PlaySoundFrame(tag, uuid, name, volume, pitch);
    var body := PlaySoundBodyBytes(uuid, name, volume, pitch);
    var cut := frame[..k];
    var q1 := 2 + |tag|;
    assert frame == [] + EncodeUtf(tag) + body;
    UtfRoundTrip([], tag, body);
    UtfBytesAtPrefix(frame, 0, k);
    if k < q1 {
      assert UtfAt(cut, 0, host).None?;
    } else {
      assert UtfAt(cut, 0, host) == Some(Read(PlaySoundTag, q1));
      TruncatedBody(EncodeUtf(tag), uuid, name, volume, pitch, k, host);
    }
  }

  /**
    A body cut short at any of its bytes cannot be read, whatever its UUID
    and name bytes decode to.
  */
  lemma {:induction false} TruncatedBody(before: seq<byte>, uuid: seq<byte>, name: seq<byte>,
                                         volume: Bits32, pitch: Bits32, k: nat, host: Host)
    requires |uuid| <= MaxUtfLength && |name| <= MaxUtfLength
    requires |before| <= k < |before| + |PlaySoundBodyBytes(uuid, name, volume, pitch)|
    ensures DecodePlaySound((before + PlaySoundBodyBytes(uuid, name, volume, pitch))[..k], |before|, host).None?
  {
    var data := before + PlaySoundBodyBytes(uuid, name, volume, pitch);
    assert data == before + PlaySoundBodyBytes(uuid, name, volume, pitch) + [];
    BodyFields(before, uuid, name, volume, pitch, []);
    var q1 := |before|;
    var q2 := q1 + 2 + |uuid|;
    var q3 := q2 + 2 + |name|;
    UtfBytesAtPrefix(data, q1, k);
    if q2 <= k {
      UtfBytesAtPrefix(data, q2, k);
      if q3 <= k {
        FloatBitsAtPrefix(data, q3, k);
        if q3 + 4 <= k {
          FloatBitsAtPrefix(data, q3 + 4, k);
        }
      }
    }
  }

  /**
    The converse of FrameRoundTrip: whenever the listener gets as far as
    parsing the UUID text, the message is a whole PLAY_SOUND frame followed
    by bytes it never read, and the handling is that frame's.
  */
  lemma {:induction false} AcceptedMessageIsFrame(message: seq<byte>, host: Host)
    returns (tag: seq<byte>, uuid: seq<byte>, name: seq<byte>, volume: Bits32, pitch: Bits32, trailing: seq<byte>)
    requires Handle(Channel, message, host).outcome.InvalidUuid?
          || Handle(Channel, message, host).outcome.TargetNotFound?
          || Handle(Channel, message, host).outcome.Played?
    ensures |tag| <= MaxUtfLength && |uuid| <= MaxUtfLength && |name| <= MaxUtfLength
    ensures message == PlaySoundFrame(tag, uuid, name, volume, pitch) + trailing
    ensures host.decodeUtf(tag) == Some(PlaySoundTag)
    ensures host.decodeUtf(uuid).Some? && host.decodeUtf(name).Some?
    ensures Handle(Channel, message, host)
         == ResolvePlaySound(PlaySoundCommand(host.decodeUtf(uuid).value, host.decodeUtf(name).value, volume, pitch), host)
  {
    var cmd := BodyReached(message, host);
    tag, uuid, name, volume, pitch, trailing := TaggedBodyIsFrame(message, host);
  }

  /** A message holding the PLAY_SOUND tag and a readable body is a written frame plus unread bytes. */
  lemma {:induction false} TaggedBodyIsFrame(message: seq<byte>, host: Host)
    returns (tag: seq<byte>, uuid: seq<byte>, name: seq<byte>, volume: Bits32, pitch: Bits32, trailing: seq<byte>)
    requires UtfAt(message, 0, host).Some? && UtfAt(message, 0, host).value.value == PlaySoundTag
    requires DecodePlaySound(message, UtfAt(message, 0, host).value.next, host).Some?
    ensures |tag| <= MaxUtfLength && |uuid| <= MaxUtfLength && |name| <= MaxUtfLength
    ensures message == PlaySoundFrame(tag, uuid, name, volume, pitch) + trailing
    ensures host.decodeUtf(tag) == Some(PlaySoundTag)
    ensures host.decodeUtf(uuid).Some? && host.decodeUtf(name).Some?
    ensures DecodePlaySound(message, UtfAt(message, 0, host).value.next, host).value.value
         == PlaySoundCommand(host.decodeUtf(uuid).value, host.decodeUtf(name).value, volume, pitch)
  {
    var t := UtfBytesAt(message, 0).value;
    tag := t.value;
    var end;
    uuid, name, volume, pitch, end := DecodedBodyIsWritten(message, t.next, host);
    trailing := message[end..];
    assert message[..t.next] == EncodeUtf(tag);
    assert message[..end] == message[..t.next] + message[t.next..end];
    assert message == message[..end] + message[end..];
  }

  /**
    The converse of DecodePlaySoundRoundTrip: whenever a body can be read,
    the bytes it consumed are exactly the writer's encoding of four fields,
    and the command read is made of those fields.
  */
  lemma {:induction false} DecodedBodyIsWritten(data: seq<byte>, pos: nat, host: Host)
    returns (uuid: seq<byte>, name: seq<byte>, volume: Bits32, pitch: Bits32, end: nat)
    requires DecodePlaySound(data, pos, host).Some?
    ensures |uuid| <= MaxUtfLength && |name| <= MaxUtfLength && pos <= end <= |data|
    ensures data[pos..end] == PlaySoundBodyBytes(uuid, name, volume, pitch)
    ensures host.decodeUtf(uuid).Some? && host.decodeUtf(name).Some?
    ensures DecodePlaySound(data, pos, host).value
         == Read(PlaySoundCommand(host.decodeUtf(uuid).value, host.decodeUtf(name).value, volume, pitch), end)
  {
    var u := UtfBytesAt(data, pos).value;
    var n := UtfBytesAt(data, u.next).value;
    var v := FloatBitsAt(data, n.next).value;
    var p := FloatBitsAt(data, v.next).value;
    uuid, name, volume, pitch, end := u.value, n.value, v.value, p.value, p.next;
    assert data[pos..n.next] == data[pos..u.next] + data[u.next..n.next];
    assert data[pos..v.next] == data[pos..n.next] + data[n.next..v.next];
    assert data[pos..end] == data[pos..v.next] + data[v.next..end];
  }

  /** A message handled past its reads carries the PLAY_SOUND tag and a whole body. */
  lemma BodyReached(message: seq<byte>, host: Host) returns (body: PlaySoundCommand)
    requires Handle(Channel, message, host).outcome.InvalidUuid?
          || Handle(Channel, message, host).outcome.TargetNotFound?
          || Handle(Channel, message, host).outcome.Played?
    ensures UtfAt(message, 0, host).Some? && UtfAt(message, 0, host).value.value == PlaySoundTag
    ensures DecodePlaySound(message, UtfAt(message, 0, host).value.next, host).Some?
    ensures body == DecodePlaySound(message, UtfAt(message, 0, host).value.next, host).value.value
    ensures Handle(Channel, message, host) == ResolvePlaySound(body, host)
  {
    body := DecodePlaySound(message, UtfAt(message, 0, host).value.next, host).value.value;
  }
}
