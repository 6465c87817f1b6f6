# Aegis backend plugin message listener, in Dafny

This project models `AegisMessageListener`. It is the part of the Aegis backend
plugin that handles plugin messages sent by the Aegis proxy. Each message is
handled on its own, and nothing is kept between messages. Handling has four
steps:

1. **Channel filter.** Every channel but `aegis:main` is dropped silently.
2. **Framing.** A tag string is read in `DataInput.readUTF` format: a 2-byte
   big-endian length, then that many bytes. For `PLAY_SOUND`, four body
   fields come next, in this order:
   - the target's UUID text;
   - the sound name, in enum style;
   - the volume, a 4-byte big-endian float;
   - the pitch, a 4-byte big-endian float.

   A read that runs past the end of the buffer or meets malformed text is
   caught and logged as SEVERE. Bytes after the pitch are never read.
3. **Dispatch.** `PLAY_SOUND` goes to its handler. Any other tag logs a
   warning and does nothing else.
4. **PLAY_SOUND.** The handler does these steps in order:
   - parse the UUID; if that fails, warn and stop;
   - find the player; if there is none, or the player is offline, log at
     FINE and stop;
   - lower-case the sound name and turn every `_` into `.`;
   - look up the resulting key in the sound registry;
   - if the key is invalid or the registry does not know it, warn and use
     `BLOCK_NOTE_BLOCK_PLING` instead;
   - play the sound to the player once, with the decoded volume and pitch.

Files:

- `wire.dfy` holds `Wrappers` (Option) and `Wire`. `Wire` has the byte-level
  readers `UnsignedShortAt`, `UtfBytesAt` and `FloatBitsAt`, the matching
  writer-side encoders, and the lemmas linking the two.
- `names.dfy` holds `SoundNames`, the conversion from a sound name to a key.
- `listener.dfy` holds `Listener`:
  - the host collaborators, passed in as the functions of a `Host` value;
  - the `Outcome` and `Event` trace datatypes;
  - the spec functions `ResolveSound`, `ResolvePlaySound` and `Handle`;
  - the imperative part. `DataInput` is a read cursor with a mutable `pos`.
    The methods `HandlePlaySound` and `OnPluginMessageReceived` move it
    through successive reads, as the Java code moves its
    `ByteArrayDataInput`. Each method is proved equal to its spec function.
- `listener_lemmas.dfy` holds `ListenerLemmas`: the sender's frame encoder and
  the frame-level properties (round trip, truncation, unknown tag, and the
  converse).

A handled message gives a `Dispatch`, which holds:

- the `Outcome`: `Ignored`, `DecodeError(phase)`, `UnknownTag`, `InvalidUuid`,
  `TargetNotFound` or `Played`;
- the `Event`s in order: player lookups, registry lookups, play calls and log
  records with their level.

Volume and pitch are kept as their 32-bit IEEE 754 bit patterns and compared
bit by bit. The model does no float arithmetic.

Some behaviours of the code are easy to misread, and the model keeps them
as written:

- Decode failures are logged at SEVERE, not at warning level. The outer catch
  in `onPluginMessageReceived` (`AegisMessageListener.java:55`) and the catch
  in `handlePlaySound` (`AegisMessageListener.java:111`) both log SEVERE.
- Empty UUID or sound-name text is not rejected while decoding. It is passed
  on to `UUID.fromString` and to key construction.
- Name conversion (`AegisMessageListener.java:91`) replaces every `_`. So `BLOCK_NOTE_BLOCK_PLING` becomes
  `block.note.block.pling`, not `block.note_block.pling`.
  `ENTITY_EXPERIENCE_ORB_PICKUP` becomes `entity.experience.orb.pickup`, not
  `entity.experience_orb.pickup`. See `SoundNames.MultiWordSegmentKeys`.
- The bytes a PLAY_SOUND message consumes are the writeUTF framing of the
  payload bytes that were read, followed by the two floats. The text fields
  are the decoding of those payloads. Trailing bytes are accepted and ignored. See
  `ListenerLemmas.AcceptedMessageIsFrame`.
- The channel is the literal `aegis:main`, fixed in the code, not a setting.

## Model

All source paths are under `src/main/java/com/luascript/aegisBackend/`; the table gives them in full.

| member | source | states |
|---|---|---|
| `Wire.UnsignedShortAt` | src/main/java/com/luascript/aegisBackend/AegisMessageListener.java:43 | The length prefix can be read exactly when two bytes remain. It is at most 65535, the cursor moves by 2, and writing the value back gives the two bytes that were read. |
| `Wire.UtfBytesAt` | src/main/java/com/luascript/aegisBackend/AegisMessageListener.java:43 | readUTF's bytes fail exactly when the 2-byte prefix, or the payload length it declares, runs past the buffer. On success the consumed bytes are the writeUTF encoding of the payload, and the cursor stops right after them. |
| `Wire.FloatBitsAt` | src/main/java/com/luascript/aegisBackend/AegisMessageListener.java:68-69 | readFloat succeeds exactly when four bytes remain. The cursor moves by 4, and the bit pattern written back gives the four bytes that were read. |
| `Wire.UnsignedShortRoundTrip` | src/main/java/com/luascript/aegisBackend/AegisMessageListener.java:43 | A count that was written reads back as the same count, whatever comes before or after it. |
| `Wire.UtfRoundTrip` | src/main/java/com/luascript/aegisBackend/AegisMessageListener.java:66-67 | A payload written with writeUTF reads back as the same payload, whatever comes before or after it. |
| `Wire.FloatBitsRoundTrip` | src/main/java/com/luascript/aegisBackend/AegisMessageListener.java:68-69 | A float's bit pattern that was written reads back unchanged. |
| `Wire.UtfBytesAtPrefix` | src/main/java/com/luascript/aegisBackend/AegisMessageListener.java:66-67 | readUTF looks at no byte past what it consumes. On a buffer cut at k, it gives the whole buffer's answer if that answer ends by k, and fails otherwise. |
| `Wire.FloatBitsAtPrefix` | src/main/java/com/luascript/aegisBackend/AegisMessageListener.java:68-69 | The same for readFloat. |
| `SoundNames.NamespacedKeyString` | src/main/java/com/luascript/aegisBackend/AegisMessageListener.java:91 | The key has the name's length and contains no `_`, and every `.` of the name stays a `.`. Its lemmas below give the whole per-character mapping and idempotence. |
| `SoundNames.KeyStringCharacters` | src/main/java/com/luascript/aegisBackend/AegisMessageListener.java:91 | The key has the name's length. Each `_` becomes `.`, each ASCII capital becomes its small letter, and every other character is kept. The key has no `_` and no ASCII capital. |
| `SoundNames.KeyStringIdempotent` | src/main/java/com/luascript/aegisBackend/AegisMessageListener.java:91 | Converting an already converted name changes nothing. |
| `SoundNames.KeyStringNotInjective` | src/main/java/com/luascript/aegisBackend/AegisMessageListener.java:91 | The conversion is lossy: `NOTE_PLING` and `note.pling` give the same key. |
| `SoundNames.VillagerNoKey` | src/main/java/com/luascript/aegisBackend/AegisMessageListener.java:90-91 | `ENTITY_VILLAGER_NO` becomes `entity.villager.no`. |
| `SoundNames.MultiWordSegmentKeys` | src/main/java/com/luascript/aegisBackend/AegisMessageListener.java:91 | Underscores inside one word of a key are replaced too. `BLOCK_NOTE_BLOCK_PLING` becomes `block.note.block.pling`, and `ENTITY_EXPERIENCE_ORB_PICKUP` becomes `entity.experience.orb.pickup`. |
| `Listener.UtfAt` | src/main/java/com/luascript/aegisBackend/AegisMessageListener.java:66-67 | readUTF succeeds exactly when the length-prefixed bytes can be read and the host's decoder accepts them. The text is the decoding of those bytes, and the cursor stops right after them. |
| `Listener.DecodePlaySound` | src/main/java/com/luascript/aegisBackend/AegisMessageListener.java:66-69 | A decoded body lies inside the buffer and takes at least 12 bytes, and its UUID text is the first string read. `ListenerLemmas.DecodePlaySoundRoundTrip` shows that a written body decodes to its fields. `ListenerLemmas.DecodedBodyIsWritten` shows the converse, that every decoded body is a written one. `ListenerLemmas.TruncatedBody` shows that a cut body fails. |
| `Listener.HandlePlaySoundAt` | src/main/java/com/luascript/aegisBackend/AegisMessageListener.java:63-113 | handlePlaySound gives a DecodeError exactly when the body cannot be read, and then logs one SEVERE record and nothing else. Otherwise its result is `ResolvePlaySound` of the decoded fields. It makes exactly one play call on Played and none otherwise. |
| `Listener.ResolveSound` | src/main/java/com/luascript/aegisBackend/AegisMessageListener.java:88-102 | The fallback is used exactly when NamespacedKey rejects the key or the registry does not know it. Otherwise the registry's sound is chosen. The events are exactly one registry lookup of the converted key when NamespacedKey accepts it, then one warning when the fallback is used, and nothing else. |
| `Listener.ResolvePlaySound` | src/main/java/com/luascript/aegisBackend/AegisMessageListener.java:71-108 | The outcome is InvalidUuid exactly when the UUID does not parse, and then only a warning is logged (no player lookup). It is TargetNotFound exactly when the player is absent or offline, and then there is one lookup and a FINE log (no registry lookup, no play). Otherwise it is Played: the found online player, the decoded volume and pitch unchanged, and the registry's sound or the fallback. On the Played path the events are exactly the player lookup, then the sound choice's own events (a registry lookup exactly when the key is valid, a warning exactly when the fallback is used), then the one play call, then a FINE log. There is exactly one play call on the Played path and none on the others. |
| `Listener.Handle` | src/main/java/com/luascript/aegisBackend/AegisMessageListener.java:32-57 | A message is Ignored, with no events, exactly when the channel is not `aegis:main`. A decode error logs one SEVERE record and nothing else. An Envelope decode error happens exactly when the tag cannot be read. UnknownTag happens exactly when the tag is read and is not `PLAY_SOUND`, and then only a warning is logged. Play calls happen only on the Played outcome, exactly one of them. |
| `Listener.DataInput.constructor` | src/main/java/com/luascript/aegisBackend/AegisMessageListener.java:40 | A new cursor is at position 0 of the message. |
| `Listener.DataInput.ReadUnsignedShort` | src/main/java/com/luascript/aegisBackend/AegisMessageListener.java:43 | Returns what `UnsignedShortAt` reads at the old position, and moves the cursor past it. |
| `Listener.DataInput.ReadUtf` | src/main/java/com/luascript/aegisBackend/AegisMessageListener.java:66-67 | Returns the decoded text `UtfBytesAt` and the host's decoder give at the old position, and moves the cursor past the payload. |
| `Listener.DataInput.ReadFloat` | src/main/java/com/luascript/aegisBackend/AegisMessageListener.java:68-69 | Returns the bit pattern `FloatBitsAt` reads at the old position, and moves the cursor past it. |
| `Listener.HandlePlaySound` | src/main/java/com/luascript/aegisBackend/AegisMessageListener.java:63-113 | Reading the four fields through the cursor, then resolving, gives the same result as `HandlePlaySoundAt` at the cursor's starting position. When the whole body is read, the cursor ends just past the pitch, so any trailing bytes stay unread. |
| `Listener.OnPluginMessageReceived` | src/main/java/com/luascript/aegisBackend/AegisMessageListener.java:32-57 | The imperative handler, with its mutable cursor, returns exactly `Handle(channel, message, host)`. |
| `ListenerLemmas.ForeignChannelReadsNothing` | src/main/java/com/luascript/aegisBackend/AegisMessageListener.java:34-36 | On another channel, the result does not depend on the message or the host, and it is Ignored with no events. |
| `ListenerLemmas.BodyFields` | src/main/java/com/luascript/aegisBackend/AegisMessageListener.java:66-69 | In a written body, each of the four reads starts where the previous one stopped and returns the field that was written. |
| `ListenerLemmas.DecodePlaySoundRoundTrip` | src/main/java/com/luascript/aegisBackend/AegisMessageListener.java:66-69 | Decoding a written body returns exactly the four fields, wherever the body starts and whatever follows it. |
| `ListenerLemmas.FrameRoundTrip` | src/main/java/com/luascript/aegisBackend/AegisMessageListener.java:40-69 | A PLAY_SOUND frame on `aegis:main`, followed by any trailing bytes, is handled exactly as its four written fields say. |
| `ListenerLemmas.UnknownTagFrame` | src/main/java/com/luascript/aegisBackend/AegisMessageListener.java:43-52 | A frame whose tag decodes to anything but `PLAY_SOUND` gives UnknownTag with that tag and a single warning, whatever follows the tag. |
| `ListenerLemmas.TruncatedFrame` | src/main/java/com/luascript/aegisBackend/AegisMessageListener.java:40-111 | Cutting a PLAY_SOUND frame short at any byte gives a DecodeError and a single SEVERE log, with no lookup and no play. A cut in the tag is caught by the outer handler, and a cut later by the PLAY_SOUND handler. This holds for every host, so a short body is a decode error even when the UUID text is invalid. |
| `ListenerLemmas.TruncatedBody` | src/main/java/com/luascript/aegisBackend/AegisMessageListener.java:66-69 | A body cut short at any of its bytes cannot be read, whatever its UUID and name bytes decode to. |
| `ListenerLemmas.DecodedBodyIsWritten` | src/main/java/com/luascript/aegisBackend/AegisMessageListener.java:66-69 | The converse of DecodePlaySoundRoundTrip. Whenever a body can be read, the bytes it consumed are the writer's encoding of four fields, and the decoded command is made of exactly those fields. |
| `ListenerLemmas.TaggedBodyIsFrame` | src/main/java/com/luascript/aegisBackend/AegisMessageListener.java:43-69 | A message whose tag reads as `PLAY_SOUND` and whose body can be read is a written PLAY_SOUND frame followed by unread bytes. |
| `ListenerLemmas.BodyReached` | src/main/java/com/luascript/aegisBackend/AegisMessageListener.java:43-69 | If handling reaches the UUID parse, the tag was read as `PLAY_SOUND`, all four body fields were read, and the result is the resolution of that body. |
| `ListenerLemmas.AcceptedMessageIsFrame` | src/main/java/com/luascript/aegisBackend/AegisMessageListener.java:43-78 | The converse of FrameRoundTrip. Whenever the UUID text gets parsed, the message is a whole PLAY_SOUND frame followed by unread bytes, and the handling is that frame's. The consumed bytes are the writeUTF framing of the payload bytes that were read, plus the two floats, and the text fields are the decoding of those payloads. |

## Left out

- Startup and shutdown in `AegisBackend.onEnable`/`onDisable` are not modelled. They register and unregister the channel and hold no logic.
- The server is not modelled. `Bukkit.getPlayer`, `Player.isOnline`, the validation inside `NamespacedKey.minecraft`, `Registry.SOUNDS.get` and `playSound` are the functions of `Host` (or a `PlaySound` event) and are assumed never to throw. The model therefore leaves out the SEVERE path for an exception thrown from these calls.
- `getLocation` and `getName` are not modelled. The sound is played at the player's location, which the model does not represent, and the player's name appears only in log text.
- Modified UTF-8 decoding is the host function `decodeUtf`, which may fail. `UUID.fromString` is the host function `parseUuid`, which may fail. Their exact grammars belong to the JDK.
- Encoding decoded text back into bytes is not modelled, since `decodeUtf` is abstract. In the JDK that round trip does not always return the bytes that were read. `readUTF` accepts a raw 0x00 byte and overlong two-byte forms, which `writeUTF` writes back as `C0 80` and the one-byte form.
- `String.toLowerCase()` is modelled under the assumption that the server's default locale lower-cases the ASCII capitals to the ASCII small letters. It maps nothing else. In a Turkish or Azerbaijani locale the JDK maps `I` to the dotless `ı` (U+0131). There `ENTITY_VILLAGER_NO` becomes `entıty.vıllager.no`, NamespacedKey rejects it, and the fallback plays. `SoundNames.VillagerNoKey` and `SoundNames.KeyStringCharacters` hold only under this assumption. Non-ASCII letters, which every locale maps, are not modelled either.
- Float semantics are not modelled. Volume and pitch are opaque 32-bit patterns.
- Log messages are not modelled, only their levels. The `player` argument of `onPluginMessageReceived` is not modelled: the logic never uses it.
- Threading is not modelled. The listener keeps no state between messages.
- Listener.DataInput.ReadUtf: says nothing about where the cursor stands after a failed read. The Java reader throws there, and the listener never reads again.
- Listener.DataInput.ReadUnsignedShort: says nothing about the cursor after a failed read, for the same reason.
- Listener.DataInput.ReadFloat: says nothing about the cursor after a failed read, for the same reason.
