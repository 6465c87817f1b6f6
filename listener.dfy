/**
  AegisMessageListener: the backend's handler for plugin messages sent by the
  Aegis proxy. For each message it checks the channel, reads a tag string,
  and for PLAY_SOUND reads the target's UUID text, an enum-style sound name,
  a volume and a pitch, resolves the target player and the sound, and plays
  the sound to that player once.

  The server and the JDK are reached only through the functions of `Host`.
  What the listener does to the outside world is recorded as a sequence of
  `Event`s (player lookups, registry lookups, the play call, log records),
  together with an `Outcome` naming the branch the message ended in.
*/
module Listener {
  import opened Wrappers
  import opened Wire
  import SoundNames

  /** The only channel the listener acts on. */
  const Channel: string := "aegis:main"

  /** The only message type with a handler. */
  const PlaySoundTag: string := "PLAY_SOUND"

  /** java.util.UUID: two 64-bit halves. */
  datatype Uuid = Uuid(mostSigBits: bv64, leastSigBits: bv64)

  /** A player known to the server. */
  datatype Player = Player(uniqueId: Uuid, name: string)

  /** A sound of the server's sound registry, named by its key. */
  datatype Sound = Sound(key: string)

  /** Sound.BLOCK_NOTE_BLOCK_PLING, played when the requested sound cannot be found. */
  const FallbackSound: Sound := Sound("block.note_block.pling")

  /**
    The collaborators the listener calls, as total functions.
    - decodeUtf: the modified UTF-8 decoding step of DataInput.readUTF; None
      where the bytes are malformed.
    - parseUuid: UUID.fromString; None where it throws IllegalArgumentException.
    - getPlayer: Bukkit.getPlayer(UUID); None for null.
    - isOnline: Player.isOnline().
    - isValidKey: whether NamespacedKey.minecraft accepts the string as a key.
    - registryGet: Registry.SOUNDS.get for a valid key; None for null.
  */
  datatype Host = Host(
    decodeUtf: seq<byte> -> Option<string>,
    parseUuid: string -> Option<Uuid>,
    getPlayer: Uuid -> Option<Player>,
    isOnline: Player -> bool,
    isValidKey: string -> bool,
    registryGet: string -> Option<Sound>)

  /** java.util.logging levels the listener uses. */
  datatype Level = Severe | Warning | Fine

  /** Which of the two `catch (Exception e)` blocks caught a failed read. */
  datatype Phase = Envelope | PlaySoundBody

  /** A call the listener makes into the server, or a log record it writes. */
  datatype Event =
    | GetPlayer(id: Uuid)
    | RegistryGet(key: string)
    | PlaySound(target: Player, sound: Sound, volume: Bits32, pitch: Bits32)
    | Log(level: Level)

  /** The branch handling of one message ended in. */
  datatype Outcome =
    | Ignored
    | DecodeError(phase: Phase)
    | UnknownTag(tag: string)
    | InvalidUuid(uuidText: string)
    | TargetNotFound(id: Uuid)
    | Played(target: Player, sound: Sound, usedFallback: bool, volume: Bits32, pitch: Bits32)

  /** The result of handling one message: its outcome and what it did, in order. */
  datatype Dispatch = Dispatch(outcome: Outcome, events: seq<Event>)

  /** The four fields of a PLAY_SOUND body, in the order they are read. */
  datatype PlaySoundCommand = PlaySoundCommand(uuidText: string, soundName: string, volume: Bits32, pitch: Bits32)

  /** The sound chosen for a name, whether it is the fallback, and the calls and logs made choosing it. */
  datatype SoundChoice = SoundChoice(sound: Sound, usedFallback: bool, events: seq<Event>)

  /** The play calls among `events`, in order. */
  function PlayCalls(events: seq<Event>): (r: seq<Event>)
    ensures forall e :: e in r <==> e in events && e.PlaySound?
    ensures |r| <= |events|
  {
    if events == [] then []
    else (if events[0].PlaySound? then [events[0]] else []) + PlayCalls(events[1..])
  }

  /** DataInput.readUTF at `pos`: the length-prefixed bytes, then their decoding. */
  function UtfAt(data: seq<byte>, pos: nat, host: Host): (r: Option<Read<string>>)
    ensures r.Some? <==> UtfBytesAt(data, pos).Some? && host.decodeUtf(UtfBytesAt(data, pos).value.value).Some?
    ensures r.Some? ==>
      && r.value.next == UtfBytesAt(data, pos).value.next
      && host.decodeUtf(UtfBytesAt(data, pos).value.value) == Some(r.value.value)
  {
    match UtfBytesAt(data, pos)
    case None => None
    case Some(Read(payload, next)) =>
      match host.decodeUtf(payload)
      case None => None
      case Some(text) => Some(Read(text, next))
  }

  /** The body of a PLAY_SOUND message at `pos`, all four fields read before anything is looked at. */
  function DecodePlaySound(data: seq<byte>, pos: nat, host: Host): (r: Option<Read<PlaySoundCommand>>)
    ensures r.Some? ==> pos + 12 <= r.value.next <= |data|
    ensures r.Some? ==> UtfAt(data, pos, host).Some? && r.value.value.uuidText == UtfAt(data, pos, host).value.value
  {
    match UtfAt(data, pos, host)
    case None => None
    case Some(uuid) =>
      match UtfAt(data, uuid.next, host)
      case None => None
      case Some(name) =>
        match FloatBitsAt(data, name.next)
        case None => None
        case Some(volume) =>
          match FloatBitsAt(data, volume.next)
          case None => None
          case Some(pitch) =>
            Some(Read(PlaySoundCommand(uuid.value, name.value, volume.value, pitch.value), pitch.next))
  }

  /**
    The registry lookup with its fallback: the name is turned into a key; a
    key NamespacedKey rejects, or one the registry does not know, gives the
    fallback sound and a warning.
  */
  function ResolveSound(soundName: string, host: Host): (c: SoundChoice)
    ensures var key := SoundNames.NamespacedKeyString(soundName);
      && (c.usedFallback <==> !host.isValidKey(key) || host.registryGet(key).None?)
      && c.sound == (if c.usedFallback then FallbackSound else host.registryGet(key).value)
      && (forall e :: e in c.events ==> e.RegistryGet? || e == Log(Warning))
      && (RegistryGet(key) in c.events <==> host.isValidKey(key))
      && (Log(Warning) in c.events <==> c.usedFallback)
      && c.events == (if host.isValidKey(key) then [RegistryGet(key)] else []) + (if c.usedFallback then [Log(Warning)] else [])
  {
    var key := SoundNames.NamespacedKeyString(soundName);
    if !host.isValidKey(key) then
      SoundChoice(FallbackSound, true, [Log(Warning)])
    else
      match host.registryGet(key)
      case Some(sound) => SoundChoice(sound, false, [RegistryGet(key)])
      case None => SoundChoice(FallbackSound, true, [RegistryGet(key), Log(Warning)])
  }

  /**
    handlePlaySound after its fields are read: parse the UUID, find the
    player, choose the sound, play it.
  */
  function ResolvePlaySound(cmd: PlaySoundCommand, host: Host): (r: Dispatch)
    ensures r.outcome.InvalidUuid? || r.outcome.TargetNotFound? || r.outcome.Played?
    ensures r.outcome.InvalidUuid? <==> host.parseUuid(cmd.uuidText).None?
    ensures r.outcome.InvalidUuid? ==> r.outcome.uuidText == cmd.uuidText && r.events == [Log(Warning)]
    ensures r.outcome.TargetNotFound? <==>
      && host.parseUuid(cmd.uuidText).Some?
      && var found := host.getPlayer(host.parseUuid(cmd.uuidText).value);
         found.None? || !host.isOnline(found.value)
    ensures r.outcome.TargetNotFound? ==>
      && r.outcome.id == host.parseUuid(cmd.uuidText).value
      && r.events == [GetPlayer(r.outcome.id), Log(Fine)]
    ensures r.outcome.Played? ==>
      && var id := host.parseUuid(cmd.uuidText).value;
      && var key := SoundNames.NamespacedKeyString(cmd.soundName);
      && host.getPlayer(id) == Some(r.outcome.target)
      && host.isOnline(r.outcome.target)
      && r.outcome.volume == cmd.volume
      && r.outcome.pitch == cmd.pitch
      && (r.outcome.usedFallback <==> !host.isValidKey(key) || host.registryGet(key).None?)
      && r.outcome.sound == (if r.outcome.usedFallback then FallbackSound else host.registryGet(key).value)
      && r.events == [GetPlayer(id)] + ResolveSound(cmd.soundName, host).events
                     + [PlaySound(r.outcome.target, r.outcome.sound, r.outcome.volume, r.outcome.pitch), Log(Fine)]
    ensures PlayCalls(r.events) ==
      if r.outcome.Played? then [PlaySound(r.outcome.target, r.outcome.sound, r.outcome.volume, r.outcome.pitch)]
      else []
  {
    match host.parseUuid(cmd.uuidText)
    case None => Dispatch(InvalidUuid(cmd.uuidText), [Log(Warning)])
    case Some(id) =>
      match host.getPlayer(id)
      case None => Dispatch(TargetNotFound(id), [GetPlayer(id), Log(Fine)])
      case Some(target) =>
        if !host.isOnline(target) then
          Dispatch(TargetNotFound(id), [GetPlayer(id), Log(Fine)])
        else
          var choice := ResolveSound(cmd.soundName, host);
          var play := PlaySound(target, choice.sound, cmd.volume, cmd.pitch);
          var events := [GetPlayer(id)] + choice.events + [play, Log(Fine)];
          PlayCallsOfChoice(id, choice, play);
          Dispatch(Played(target, choice.sound, choice.usedFallback, cmd.volume, cmd.pitch), events)
  }

  /** The play calls of a concatenation are those of each part, in order. */
  lemma {:induction false} PlayCallsAppend(a: seq<Event>, b: seq<Event>)
    ensures PlayCalls(a + b) == PlayCalls(a) + PlayCalls(b)
  {
    if a == [] {
      assert a + b == b;
    } else {
      assert (a + b)[1..] == a[1..] + b;
      PlayCallsAppend(a[1..], b);
    }
  }

  /** Events none of which is a play call contain no play call. */
  lemma {:induction false} NoPlayCalls(events: seq<Event>)
    requires forall e :: e in events ==> !e.PlaySound?
    ensures PlayCalls(events) == []
  {
    if events != [] {
      NoPlayCalls(events[1..]);
    }
  }

  lemma PlayCallsOfChoice(id: Uuid, choice: SoundChoice, play: Event)
    requires play.PlaySound?
    requires forall e :: e in choice.events ==> e.RegistryGet? || e == Log(Warning)
    ensures PlayCalls([GetPlayer(id)] + choice.events + [play, Log(Fine)]) == [play]
  {
    NoPlayCalls(choice.events);
    assert [play, Log(Fine)][1..] == [Log(Fine)];
    PlayCallsAppend([GetPlayer(id)], choice.events);
    PlayCallsAppend([GetPlayer(id)] + choice.events, [play, Log(Fine)]);
  }

  /** handlePlaySound from the body's first byte: a failed read is caught and logged as severe. */
  function HandlePlaySoundAt(data: seq<byte>, pos: nat, host: Host): (r: Dispatch)
    ensures r.outcome.DecodeError? <==> DecodePlaySound(data, pos, host).None?
    ensures r.outcome.DecodeError? ==> r == Dispatch(DecodeError(PlaySoundBody), [Log(Severe)])
    ensures !r.outcome.DecodeError? ==> r == ResolvePlaySound(DecodePlaySound(data, pos, host).value.value, host)
    ensures PlayCalls(r.events) ==
      if r.outcome.Played? then [PlaySound(r.outcome.target, r.outcome.sound, r.outcome.volume, r.outcome.pitch)]
      else []
  {
    match DecodePlaySound(data, pos, host)
    case None => Dispatch(DecodeError(PlaySoundBody), [Log(Severe)])
    case Some(body) => ResolvePlaySound(body.value, host)
  }

  /** onPluginMessageReceived, as a function of the channel, the message and the host. */
  function Handle(channel: string, message: seq<byte>, host: Host): (r: Dispatch)
    ensures r.outcome == Ignored <==> channel != Channel
    ensures r.outcome == Ignored ==> r.events == []
    ensures r.outcome.DecodeError? ==> r.events == [Log(Severe)]
    ensures r.outcome == DecodeError(Envelope) <==> channel == Channel && UtfAt(message, 0, host).None?
    ensures r.outcome.UnknownTag? <==>
      channel == Channel && UtfAt(message, 0, host).Some? && UtfAt(message, 0, host).value.value != PlaySoundTag
    ensures r.outcome.UnknownTag? ==>
      r.outcome.tag == UtfAt(message, 0, host).value.value && r.events == [Log(Warning)]
    ensures PlayCalls(r.events) ==
      if r.outcome.Played? then [PlaySound(r.outcome.target, r.outcome.sound, r.outcome.volume, r.outcome.pitch)]
      else []
  {
    if channel != Channel then
      Dispatch(Ignored, [])
    else
      match UtfAt(message, 0, host)
      case None => Dispatch(DecodeError(Envelope), [Log(Severe)])
      case Some(tag) =>
        if tag.value == PlaySoundTag then HandlePlaySoundAt(message, tag.next, host)
        else Dispatch(UnknownTag(tag.value), [Log(Warning)])
  }

  /**
    The read cursor over a message (Guava's ByteArrayDataInput). A read that
    fails returns None; where the cursor then stands is left open, since the
    listener never reads again after a failure.
  */
  class DataInput {
    const data: seq<byte>
    var pos: nat

    constructor (message: seq<byte>)
      ensures data == message && pos == 0
    {
      data := message;
      pos := 0;
    }

    /** readUnsignedShort. */
    method ReadUnsignedShort() returns (n: Option<nat>)
      modifies this
      ensures n == (match UnsignedShortAt(data, old(pos)) case Some(read) => Some(read.value) case None => None)
      ensures n.Some? ==> pos == old(pos) + 2
    {
      if pos + 2 > |data| {
        return None;
      }
      n := Some(data[pos] as int * 0x100 + data[pos + 1]);
      pos := pos + 2;
    }

    /** readUTF: the length, readFully of that many bytes, then decoding. */
    method ReadUtf(host: Host) returns (s: Option<string>)
      modifies this
      ensures s == (match UtfAt(data, old(pos), host) case Some(read) => Some(read.value) case None => None)
      ensures s.Some? ==> pos == UtfAt(data, old(pos), host).value.next
    {
      var len := ReadUnsignedShort();
      if len.None? || pos + len.value > |data| {
        return None;
      }
      var payload := data[pos..pos + len.value];
      pos := pos + len.value;
      s := host.decodeUtf(payload);
    }

    /** readFloat, as its bit pattern. */
    method ReadFloat() returns (bits: Option<Bits32>)
      modifies this
      ensures bits == (match FloatBitsAt(data, old(pos)) case Some(read) => Some(read.value) case None => None)
      ensures bits.Some? ==> pos == old(pos) + 4
    {
      if pos + 4 > |data| {
        return None;
      }
      var hi: nat := data[pos] as int * 0x100 + data[pos + 1];
      var mid: nat := hi * 0x100 + data[pos + 2];
      bits := Some(mid * 0x100 + data[pos + 3]);
      pos := pos + 4;
    }
  }

  /** handlePlaySound: read the four fields from the cursor, then resolve and play. */
  method HandlePlaySound(input: DataInput, host: Host) returns (d: Dispatch)
    modifies input
    ensures d == HandlePlaySoundAt(input.data, old(input.pos), host)
    ensures DecodePlaySound(input.data, old(input.pos), host).Some? ==>
      input.pos == DecodePlaySound(input.data, old(input.pos), host).value.next
  {
    var uuidText := input.ReadUtf(host);
    if uuidText.None? {
      return Dispatch(DecodeError(PlaySoundBody), [Log(Severe)]);
    }
    var soundName := input.ReadUtf(host);
    if soundName.None? {
      return Dispatch(DecodeError(PlaySoundBody), [Log(Severe)]);
    }
    var volume := input.ReadFloat();
    if volume.None? {
      return Dispatch(DecodeError(PlaySoundBody), [Log(Severe)]);
    }
    var pitch := input.ReadFloat();
    if pitch.None? {
      return Dispatch(DecodeError(PlaySoundBody), [Log(Severe)]);
    }
    d := ResolvePlaySound(PlaySoundCommand(uuidText.value, soundName.value, volume.value, pitch.value), host);
  }

  /** onPluginMessageReceived: filter the channel, read the tag from a fresh cursor, dispatch on it. */
  method OnPluginMessageReceived(channel: string, message: seq<byte>, host: Host) returns (d: Dispatch)
    ensures d == Handle(channel, message, host)
  {
    if channel != Channel {
      return Dispatch(Ignored, []);
    }
    var input := new DataInput(message);
    var tag := input.ReadUtf(host);
    if tag.None? {
      return Dispatch(DecodeError(Envelope), [Log(Severe)]);
    }
    if tag.value == PlaySoundTag {
      d := HandlePlaySound(input, host);
    } else {
      d := Dispatch(UnknownTag(tag.value), [Log(Warning)]);
    }
  }
}
