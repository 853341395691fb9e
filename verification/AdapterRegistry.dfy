/** The storage key of a conversation (packages/core/src/adapter-registry.ts). */
module AdapterRegistry {
  import opened JsText

  /** The length of the adapter id, a colon, and the two opaque strings. */
  function ConversationStorageKey(adapterId: string, conversationKey: string): string {
    ShowNat(|adapterId|) + ":" + adapterId + conversationKey
  }

  /** Where the adapter id and the conversation key meet in a storage key. */
  function ReadStorageKey(key: string): (string, string) {
    var colon := LeadingDigits(key);
    var rest := if colon < |key| then key[colon + 1..] else "";
    var split := Number(key[..colon]);
    if split <= |rest| then (rest[..split], rest[split..]) else (rest, "")
  }

  /** A storage key gives back both strings, whatever characters they hold. */
  lemma StorageKeyReads(adapterId: string, conversationKey: string)
    ensures ReadStorageKey(ConversationStorageKey(adapterId, conversationKey)) == (adapterId, conversationKey)
  {
    var length := ShowNat(|adapterId|);
    var rest := adapterId + conversationKey;
    var key := ConversationStorageKey(adapterId, conversationKey);
    assert key == length + (":" + rest);
    DigitsLead(length, ":" + rest);
    ShowNatReads(|adapterId|);
    assert key[..|length|] == length && key[|length| + 1..] == rest;
    assert rest[..|adapterId|] == adapterId && rest[|adapterId|..] == conversationKey;
  }

  /** Distinct conversations have distinct keys. */
  lemma StorageKeyInjective(a: string, k: string, b: string, l: string)
    ensures ConversationStorageKey(a, k) == ConversationStorageKey(b, l) <==> a == b && k == l
  {
    StorageKeyReads(a, k);
    StorageKeyReads(b, l);
  }
}
