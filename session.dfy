/** The application's per-browser session state (`st.session_state`): a
    store of named values that persists across reruns of the script. Every
    key the application uses is a field; a field is `None` while the key has
    not been set. */
module Session {
  import opened Base
  import opened Dicts

  /** The values held under the session keys at one moment. */
  datatype Snapshot = Snapshot(
    messages: Option<seq<ChatMessage>>,   // 'messages'
    planGenerated: Option<bool>,          // 'plan_generated'
    planText: Option<string>,             // 'generated_plan_text'
    images: Option<Dict<Image>>,          // 'generated_images'
    selectedModel: Option<string>,        // 'selected_model'
    visualStyle: Option<string>)          // 'visual_style', set by the Design Studio selector

  const Fresh := Snapshot(None, None, None, None, None, None)

  class SessionState {
    var messages: Option<seq<ChatMessage>>
    var planGenerated: Option<bool>
    var planText: Option<string>
    var images: Option<Dict<Image>>
    var selectedModel: Option<string>
    var visualStyle: Option<string>

    /** A browser session that has just connected holds no keys. */
    constructor ()
      ensures View() == Fresh
    {
      messages, planGenerated, planText := None, None, None;
      images, selectedModel, visualStyle := None, None, None;
    }

    /** The current values of all keys. */
    function View(): Snapshot
      reads this
    {
      Snapshot(messages, planGenerated, planText, images, selectedModel, visualStyle)
    }
  }
}
