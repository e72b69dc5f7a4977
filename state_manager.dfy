/** Persisting the session to the local file `session_data.json`: saving four
    of the session keys, restoring whichever of them the file holds, and
    clearing both the file and the conversation. */
module StateManager {
  import opened Base
  import opened Session

  /** The model name saved when the session has not chosen one. */
  const DefaultModel: string := "models/gemini-1.5-flash"

  /** The JSON object in the session file. The application always writes all
      four keys, but a file edited by hand may lack any of them. */
  datatype Record = Record(
    messages: Option<seq<ChatMessage>>,
    planGenerated: Option<bool>,
    planText: Option<string>,
    selectedModel: Option<string>)

  /** What the session file holds: a JSON object, or text that `json.load`
      rejects (a write cut short, a hand edit). */
  datatype FileContent = Stored(record: Record) | Unreadable

  /** How a save can go wrong: the file cannot be opened for writing (it is
      left as it was), or the write stops part way (the file was already
      truncated by opening it, so what is left does not parse). */
  datatype SaveFault = NoFault | OpenFails | DumpFails

  /** The session file `session_data.json`: absent, or present with its content. */
  class SessionDisk {
    var file: Option<FileContent>

    constructor (initial: Option<FileContent>)
      ensures file == initial
    {
      file := initial;
    }
  }

  /** The record `save_session` builds: each key's value, or its default. */
  function SavedRecord(v: Snapshot): Record {
    Record(
      Some(v.messages.GetOr([])),
      Some(v.planGenerated.GetOr(false)),
      Some(v.planText.GetOr("")),
      Some(v.selectedModel.GetOr(DefaultModel)))
  }

  /** The file after `save_session`. */
  function SaveFile(v: Snapshot, fault: SaveFault, file: Option<FileContent>): Option<FileContent> {
    match fault
    case NoFault => Some(Stored(SavedRecord(v)))
    case OpenFails => file
    case DumpFails => Some(Unreadable)
  }

  /** `if key in data: st.session_state[key] = data[key]`. */
  function Overlay<T>(fromFile: Option<T>, current: Option<T>): Option<T> {
    if fromFile.Some? then fromFile else current
  }

  /** The session after restoring a record. */
  function Restore(v: Snapshot, rec: Record): Snapshot {
    v.(messages := Overlay(rec.messages, v.messages),
       planGenerated := Overlay(rec.planGenerated, v.planGenerated),
       planText := Overlay(rec.planText, v.planText),
       selectedModel := Overlay(rec.selectedModel, v.selectedModel))
  }

  /** `load_session`: the new session and the returned flag. Without a file,
      or with one that does not parse, nothing changes and the answer is
      False; otherwise exactly the keys present in the file are overwritten
      and the answer is True. */
  function LoadSpec(v: Snapshot, file: Option<FileContent>): (r: (Snapshot, bool))
    ensures r.1 <==> file.Some? && file.value.Stored?
    ensures !r.1 ==> r.0 == v
    ensures r.0.images == v.images && r.0.visualStyle == v.visualStyle
    ensures r.1 ==> var rec := file.value.record;
      && (rec.messages.Some? ==> r.0.messages == rec.messages)
      && (rec.messages.None? ==> r.0.messages == v.messages)
      && (rec.planGenerated.Some? ==> r.0.planGenerated == rec.planGenerated)
      && (rec.planGenerated.None? ==> r.0.planGenerated == v.planGenerated)
      && (rec.planText.Some? ==> r.0.planText == rec.planText)
      && (rec.planText.None? ==> r.0.planText == v.planText)
      && (rec.selectedModel.Some? ==> r.0.selectedModel == rec.selectedModel)
      && (rec.selectedModel.None? ==> r.0.selectedModel == v.selectedModel)
  {
    match file
    case None => (v, false)
    case Some(Unreadable) => (v, false)
    case Some(Stored(rec)) => (Restore(v, rec), true)
  }

  /** The conversation after `clear_session`. */
  function ClearSpec(v: Snapshot): (r: Snapshot)
    ensures r.messages == Some([]) && r.planGenerated == Some(false) && r.planText == Some("")
    ensures r.selectedModel == v.selectedModel && r.images == v.images && r.visualStyle == v.visualStyle
  {
    v.(messages := Some([]), planGenerated := Some(false), planText := Some(""))
  }

  /** The file after `clear_session`: removed, unless removing it fails. */
  function ClearFile(file: Option<FileContent>, removeFails: bool): Option<FileContent> {
    if file.Some? && removeFails then file else None
  }

  /** `save_session`: reads the session, writes the file and never raises. */
  method SaveSession(state: SessionState, disk: SessionDisk, fault: SaveFault)
    modifies disk
    ensures disk.file == SaveFile(state.View(), fault, old(disk.file))
  {
    var data := Record(
      Some(state.messages.GetOr([])),
      Some(state.planGenerated.GetOr(false)),
      Some(state.planText.GetOr("")),
      Some(state.selectedModel.GetOr(DefaultModel)));
    match fault {
      case NoFault => disk.file := Some(Stored(data));
      case OpenFails =>
      case DumpFails => disk.file := Some(Unreadable);
    }
  }

  /** `load_session`: restores from the file, one key at a time. */
  method LoadSession(state: SessionState, disk: SessionDisk) returns (loaded: bool)
    modifies state
    ensures (state.View(), loaded) == LoadSpec(old(state.View()), disk.file)
  {
    if disk.file.None? {
      return false;
    }
    match disk.file.value {
      case Unreadable =>
        return false;
      case Stored(data) =>
        if data.messages.Some? {
          state.messages := data.messages;
        }
        if data.planGenerated.Some? {
          state.planGenerated := data.planGenerated;
        }
        if data.planText.Some? {
          state.planText := data.planText;
        }
        if data.selectedModel.Some? {
          state.selectedModel := data.selectedModel;
        }
        return true;
    }
  }

  /** `clear_session`: removes the file and resets the conversation; the
      chosen model stays. */
  method ClearSession(state: SessionState, disk: SessionDisk, removeFails: bool)
    modifies state, disk
    ensures disk.file == ClearFile(old(disk.file), removeFails)
    ensures state.View() == ClearSpec(old(state.View()))
  {
    if disk.file.Some? && !removeFails {
      disk.file := None;
    }
    state.messages := Some([]);
    state.planGenerated := Some(false);
    state.planText := Some("");
  }

  /** Saving and then loading brings back the four saved keys as they were at
      saving time (with the defaults for those that were unset), whatever the
      session held in between, and touches nothing else. */
  lemma SaveLoadRoundTrip(saved: Snapshot, current: Snapshot, file: Option<FileContent>)
    ensures var r := LoadSpec(current, SaveFile(saved, NoFault, file));
      && r.1
      && r.0.messages == Some(saved.messages.GetOr([]))
      && r.0.planGenerated == Some(saved.planGenerated.GetOr(false))
      && r.0.planText == Some(saved.planText.GetOr(""))
      && r.0.selectedModel == Some(saved.selectedModel.GetOr(DefaultModel))
      && r.0.images == current.images
      && r.0.visualStyle == current.visualStyle
  {
  }

  /** When the four keys are set, a save and a load restore them exactly. */
  lemma SaveLoadRestores(saved: Snapshot, current: Snapshot, file: Option<FileContent>)
    requires saved.messages.Some? && saved.planGenerated.Some? && saved.planText.Some? && saved.selectedModel.Some?
    ensures var r := LoadSpec(current, SaveFile(saved, NoFault, file)).0;
      r == current.(messages := saved.messages, planGenerated := saved.planGenerated,
                    planText := saved.planText, selectedModel := saved.selectedModel)
  {
    SaveLoadRoundTrip(saved, current, file);
  }

  /** Saving what was just loaded from a saved file writes the same file again. */
  lemma SaveAfterLoadIsStable(saved: Snapshot, current: Snapshot, file: Option<FileContent>)
    ensures var f := SaveFile(saved, NoFault, file);
      SaveFile(LoadSpec(current, f).0, NoFault, f) == f
  {
    SaveLoadRoundTrip(saved, current, file);
  }

  /** A failed save never leaves a file a later load would accept in its
      place: either the old file survives or nothing readable does. */
  lemma SaveFaultOutcome(v: Snapshot, current: Snapshot, fault: SaveFault, file: Option<FileContent>)
    requires fault != NoFault
    ensures var f := SaveFile(v, fault, file);
      f == file || LoadSpec(current, f) == (current, false)
  {
  }

  /** After a clear that removed the file, loading finds nothing and the
      cleared conversation stays. */
  lemma ClearThenLoad(v: Snapshot, file: Option<FileContent>)
    ensures LoadSpec(ClearSpec(v), ClearFile(file, false)) == (ClearSpec(v), false)
  {
  }

  /** Clearing and saving writes an empty conversation with the model kept. */
  lemma ClearThenSave(v: Snapshot, file: Option<FileContent>)
    ensures SaveFile(ClearSpec(v), NoFault, file) ==
              Some(Stored(Record(Some([]), Some(false), Some(""), Some(v.selectedModel.GetOr(DefaultModel)))))
  {
  }

  /** Loading is idempotent: loading the same file twice is loading it once. */
  lemma LoadTwice(v: Snapshot, file: Option<FileContent>)
    ensures LoadSpec(LoadSpec(v, file).0, file) == LoadSpec(v, file)
  {
  }
}
