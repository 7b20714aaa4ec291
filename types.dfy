/** The shapes shared by the front end: model identifiers, the two views,
    chat messages and the user's settings. */
module Types {
  import opened Wrappers

  /** A model identifier is the string the remote service recognises. The
      enumeration's members are plain strings at run time, and a stored value
      is cast to the enumeration without a check, so any string can occur. */
  type ModelId = string

  const FAST: ModelId := "gemini-2.5-flash"
  // BALANCED deliberately shares FAST's identifier.
  const BALANCED: ModelId := "gemini-2.5-flash"
  const ADVANCED: ModelId := "gemini-3-pro-preview"
  const IMAGE: ModelId := "gemini-2.5-flash-image"

  datatype ViewMode = Chat | ImageGen

  datatype Role = User | Model

  datatype ChatMessage = ChatMessage(
    id: string,
    role: Role,
    text: string,
    imageUri: Option<string>,
    timestamp: int)

  /** `selectedModelName` is a free-form label: nothing ties it to `selectedModel`. */
  datatype AppSettings = AppSettings(
    apiKeyName: string,
    apiKeyValue: string,
    selectedModel: ModelId,
    selectedModelName: string)

  /** FAST and BALANCED are one identifier; ADVANCED and IMAGE are distinct
      from it and from each other. */
  lemma ModelIdsCoincide()
    ensures FAST == BALANCED
    ensures ADVANCED != FAST && IMAGE != FAST && IMAGE != ADVANCED
  {
    assert FAST[7] != ADVANCED[7];
    assert |IMAGE| != |FAST|;
    assert |IMAGE| != |ADVANCED|;
  }
}
