/** Value types shared by every component of the model. */
module Base {

  /** A value that may be missing: a dictionary key that is absent, a Python `None`. */
  datatype Option<+T> = None | Some(value: T) {
    function GetOr(default: T): T {
      match this
      case Some(v) => v
      case None => default
    }
  }

  /** An opaque image value (a PIL image in the application).
      - Decoded: an image opened from the inline bytes of a model response;
      - Native: an image object handed back by the image service as it is;
      - Placeholder: the grey fallback image carrying a short diagnostic caption. */
  datatype Image =
    | Decoded(data: seq<bv8>)
    | Native(id: nat)
    | Placeholder(caption: string)

  /** The only speaker role the chat model call passes through unchanged. */
  const UserRole: string := "user"

  /** One message of the chat transcript. The role is kept as the text the
      application stores ("user" or "assistant"); a loaded session file may hold
      any text there. */
  datatype ChatMessage = ChatMessage(role: string, content: string)
}
