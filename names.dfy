/**
  The conversion of an enum-style sound name (ENTITY_VILLAGER_NO) into the
  string the listener hands to NamespacedKey.minecraft (entity.villager.no):
  `soundName.toLowerCase().replace('_', '.')`, in that order.

  Lower-casing is modelled for a default locale in which ASCII capitals
  lower-case to their ASCII small letters and nothing else changes them; in a
  Turkish or Azerbaijani locale String.toLowerCase() maps 'I' to the dotless
  U+0131, and non-ASCII letters are mapped in every locale. The lemmas below
  hold under that assumption.
*/
module SoundNames {

  /** Character.toLowerCase restricted to ASCII: 'A'..'Z' become 'a'..'z'. */
  function LowerChar(c: char): char
  {
    if 'A' <= c <= 'Z' then (c as int - 'A' as int + 'a' as int) as char else c
  }

  /** String.toLowerCase(), character by character. */
  function LowerCase(s: string): string
  {
    seq(|s|, i requires 0 <= i < |s| => LowerChar(s[i]))
  }

  /** String.replace(char, char): every occurrence of `from` becomes `to`, nothing else moves. */
  function Replace(s: string, from: char, to: char): string
  {
    seq(|s|, i requires 0 <= i < |s| => if s[i] == from then to else s[i])
  }

  /** The key string built from an enum-style sound name. */
  function NamespacedKeyString(soundName: string): (r: string)
    ensures |r| == |soundName|
    ensures '_' !in r
    ensures forall i :: 0 <= i < |soundName| && soundName[i] == '.' ==> r[i] == '.'
  {
    Replace(LowerCase(soundName), '_', '.')
  }

  /**
    What the conversion does to each character: an underscore becomes a
    period, an ASCII capital becomes its small letter, anything else stays.
    So the key has the name's length, no underscore and no ASCII capital.
  */
  lemma KeyStringCharacters(soundName: string)
    ensures |NamespacedKeyString(soundName)| == |soundName|
    ensures forall i :: 0 <= i < |soundName| ==>
      NamespacedKeyString(soundName)[i] == (if soundName[i] == '_' then '.' else LowerChar(soundName[i]))
    ensures '_' !in NamespacedKeyString(soundName)
    ensures forall c :: c in NamespacedKeyString(soundName) ==> !('A' <= c <= 'Z')
  {
  }

  /** Converting an already converted name changes nothing. */
  lemma KeyStringIdempotent(soundName: string)
    ensures NamespacedKeyString(NamespacedKeyString(soundName)) == NamespacedKeyString(soundName)
  {
  }

  /**
    The blanket replacement is lossy: names that differ only in '_' against
    '.' or in the case of ASCII letters become the same key.
  */
  lemma KeyStringNotInjective()
    ensures NamespacedKeyString("NOTE_PLING") == NamespacedKeyString("note.pling") == "note.pling"
  {
  }

  /** The conversion on the example in the listener's own comment. */
  lemma VillagerNoKey()
    ensures NamespacedKeyString("ENTITY_VILLAGER_NO") == "entity.villager.no"
  {
  }

  /**
    Underscores inside one word of a key (note_block, experience_orb) are
    turned into periods too, so the enum name of the fallback sound does not
    give the fallback's own key, block.note_block.pling.
  */
  lemma MultiWordSegmentKeys()
    ensures NamespacedKeyString("BLOCK_NOTE_BLOCK_PLING") == "block.note.block.pling"
    ensures NamespacedKeyString("ENTITY_EXPERIENCE_ORB_PICKUP") == "entity.experience.orb.pickup"
  {
  }
}
