/**
 * Values exchanged between the terminal UI, its screens and the background
 * work: the notes, the incoming messages (key presses, spinner ticks and the
 * completions of background tasks), the commands a handler hands back to the
 * Bubble Tea runtime, and what the library widgets answer.
 */
module UiTypes {

  datatype Option<+T> = None | Some(value: T)

  /** The raw field map of one generated note, as the LLM returned it. */
  type Fields = map<string, string>

  /** One generated note as the review screen lists it. */
  datatype NoteItem = NoteItem(index: int, front: string, back: string, raw: Fields)

  /**
   * A message delivered to the active screen. The three completions
   * GeneratedNotesMsg, GenerateErrMsg and AnkiResultMsg and the deck-creation
   * completion DeckCreatedMsg carry an error as its text (None: no error).
   * Other stands for every message no handler names (window size, the file
   * picker's own directory reads, ...).
   */
  datatype Msg =
    | Tick
    | Key(key: string)
    | Generated(raws: seq<Fields>)
    | GenerateErr(error: string)
    | AnkiResult(ankiErr: Option<string>)
    | DeckCreated(deck: string, deckErr: Option<string>)
    | Other

  /**
   * The command a handler returns. Generate, AddNotes and CreateDeck are the
   * three background tasks; Widget is any command that only a library widget
   * produces (spinner tick, cursor blink, directory read, a screen's Init);
   * Batch is tea.Batch; Crash marks a handler that panics at run time.
   */
  datatype Cmd =
    | NoCmd
    | Quit
    | Widget
    | Generate(path: string, noteModel: string)
    | AddNotes(deck: string, modelName: string, notes: seq<Fields>)
    | CreateDeck(name: string)
    | Batch(cmds: seq<Cmd>)
    | Crash

  /** The four screens of the state machine. */
  datatype Screen = Picker | Notes | DeckSelect | DeckCreate

  /**
   * What the file picker widget answers for one message: whether its own
   * Update returned a command, the file DidSelectFile reports, and whether
   * DidSelectDisabledFile fires.
   */
  datatype PickerReply = PickerReply(hasCmd: bool, selectedFile: Option<string>, selectedDisabled: bool)

  /** What the deck-name text input answers for one message: its value afterwards and whether it returned a command. */
  datatype InputReply = InputReply(value: string, hasCmd: bool)

  const CreateDeckEntry := "+ Create new deck"
  const DefaultDeck := "Default"
  const BasicModel := "Basic"

  /** A Go map lookup: the zero value "" when the key is absent. */
  function Field(m: Fields, k: string): string
  {
    if k in m then m[k] else ""
  }

  /** Whether the command starts a background task (possibly inside a batch). */
  predicate StartsTask(cmd: Cmd)
  {
    match cmd
    case Generate(_, _) => true
    case AddNotes(_, _, _) => true
    case CreateDeck(_) => true
    case Batch(cs) => exists i :: 0 <= i < |cs| && StartsTask(cs[i])
    case _ => false
  }
}
