/**
 * The session of the password manager as a value: its modes, the keys the
 * event loop dispatches on, the state a `PassMng` holds, the effect of one
 * key (`Next`) and the event loop folded over a sequence of keys (`Run`).
 */
module Session {

  datatype Option<T> = None | Some(value: T)

  /** The interaction modes (`InputMode`). */
  datatype InputMode = Normal | Title | Username | Password | Submit | Search | List

  /**
   * The key codes the dispatch tells apart. `Other` stands for every other
   * key code and also for every event that is not a key event; the loop
   * ignores both in every mode. Modifiers are not part of a key: the
   * dispatch looks only at the key code.
   */
  datatype Key = Char(c: char) | Backspace | Tab | BackTab | Esc | Insert | Other

  /** A stored credential (the `Password` record). */
  datatype Password = Entry(title: string, username: string, password: string)

  /**
   * The selection state of the list widget. No key handler reads or writes
   * it; it is carried along unchanged.
   */
  datatype ListState = ListState(offset: nat, selected: Option<nat>)

  const DefaultListState: ListState := ListState(0, None)

  /** Every field of a `PassMng`, as a value. */
  datatype State = State(
    mode: InputMode,
    listState: ListState,
    passwords: seq<Password>,
    searchText: string,
    searchList: seq<Password>,
    newTitle: string,
    newUsername: string,
    newPassword: string)

  /** The state `PassMng::new` builds. */
  function Initial(): State {
    State(Normal, DefaultListState, [], "", [], "", "", "")
  }

  /** The modes in which `Char` and `Backspace` edit a text buffer. */
  predicate Editable(m: InputMode) {
    m == Title || m == Username || m == Password || m == Search
  }

  /** The modes of the new-entry form, which `Esc` cancels. */
  predicate Drafting(m: InputMode) {
    m == Title || m == Username || m == Password || m == Submit
  }

  /** The buffer that typing edits in mode `m`. */
  function Field(s: State, m: InputMode): string
    requires Editable(m)
  {
    match m
    case Title => s.newTitle
    case Username => s.newUsername
    case Password => s.newPassword
    case Search => s.searchText
  }

  /** The buffer that typing edits in the current mode. */
  function Buffer(s: State): string
    requires Editable(s.mode)
  {
    Field(s, s.mode)
  }

  /** `s` with the buffer of its current mode replaced by `b` and nothing else changed. */
  function WithBuffer(s: State, b: string): (r: State)
    requires Editable(s.mode)
    ensures Editable(r.mode) && Buffer(r) == b
    ensures r.mode == s.mode && r.listState == s.listState
    ensures r.passwords == s.passwords && r.searchList == s.searchList
    ensures forall m :: Editable(m) && m != s.mode ==> Field(r, m) == Field(s, m)
  {
    match s.mode
    case Title => s.(newTitle := b)
    case Username => s.(newUsername := b)
    case Password => s.(newPassword := b)
    case Search => s.(searchText := b)
  }

  /** `String::pop`, with the removed character dropped. */
  function Pop(s: string): (r: string)
    ensures |s| == 0 ==> r == s
    ensures |s| > 0 ==> r + [s[|s| - 1]] == s
  {
    if |s| == 0 then s else s[..|s| - 1]
  }

  /** The three draft buffers emptied (`clear_fields`). */
  function Cleared(s: State): (r: State)
    ensures r.newTitle == "" && r.newUsername == "" && r.newPassword == ""
    ensures r == s.(newTitle := r.newTitle, newUsername := r.newUsername, newPassword := r.newPassword)
  {
    s.(newTitle := "", newUsername := "", newPassword := "")
  }

  /** What one key event does: leave the loop, or go on in a new state. */
  datatype Reaction = Exit | Proceed(next: State)

  /** The dispatch on the current mode and the key, for one key event. */
  function Next(s: State, k: Key): Reaction {
    match s.mode
    case Normal => OnNormal(s, k)
    case Title => OnTitle(s, k)
    case Username => OnUsername(s, k)
    case Password => OnPassword(s, k)
    case Submit => OnSubmit(s, k)
    case Search => OnSearch(s, k)
    case List => OnList(s, k)
  }

  // One function per arm of the dispatch, each matching on the key.

  function OnNormal(s: State, k: Key): Reaction {
    match k
    case Char('q') => Exit
    case Char('s') => Proceed(s.(mode := Search))
    case Char('l') => Proceed(s.(mode := List))
    case Insert => Proceed(s.(mode := Username))
    case _ => Proceed(s)
  }

  function OnTitle(s: State, k: Key): Reaction {
    match k
    case Esc => Proceed(Cleared(s).(mode := Normal))
    case Char(c) => Proceed(s.(newTitle := s.newTitle + [c]))
    case Backspace => Proceed(s.(newTitle := Pop(s.newTitle)))
    case Tab => Proceed(s.(mode := Username))
    case _ => Proceed(s)
  }

  function OnUsername(s: State, k: Key): Reaction {
    match k
    case Esc => Proceed(Cleared(s).(mode := Normal))
    case Char(c) => Proceed(s.(newUsername := s.newUsername + [c]))
    case Backspace => Proceed(s.(newUsername := Pop(s.newUsername)))
    case Tab => Proceed(s.(mode := Password))
    case BackTab => Proceed(s.(mode := Title))
    case _ => Proceed(s)
  }

  function OnPassword(s: State, k: Key): Reaction {
    match k
    case Esc => Proceed(Cleared(s).(mode := Normal))
    case Char(c) => Proceed(s.(newPassword := s.newPassword + [c]))
    case Backspace => Proceed(s.(newPassword := Pop(s.newPassword)))
    case Tab => Proceed(s.(mode := Submit))
    case BackTab => Proceed(s.(mode := Username))
    case _ => Proceed(s)
  }

  function OnSubmit(s: State, k: Key): Reaction {
    match k
    case Esc => Proceed(Cleared(s).(mode := Normal))
    case BackTab => Proceed(s.(mode := Password))
    case _ => Proceed(s)
  }

  function OnSearch(s: State, k: Key): Reaction {
    match k
    case Esc => Proceed(s.(mode := Normal))
    case Char(c) => Proceed(s.(searchText := s.searchText + [c]))
    case Backspace => Proceed(s.(searchText := Pop(s.searchText)))
    case _ => Proceed(s)
  }

  function OnList(s: State, k: Key): Reaction {
    match k
    case Esc => Proceed(s.(mode := Normal))
    case _ => Proceed(s)
  }

  /**
   * Where the event loop is after reading `keys`: it has returned, in state
   * `last` and with `unread` still unread, or it waits for another key.
   */
  datatype Outcome = Exited(last: State, unread: seq<Key>) | Pending(last: State)

  /** The event loop, fed the keys `keys` one by one from state `s`. */
  function Run(s: State, keys: seq<Key>): (r: Outcome)
    ensures r.Exited? ==> |r.unread| < |keys| && r.unread == keys[|keys| - |r.unread|..]
    decreases |keys|
  {
    if keys == [] then Pending(s)
    else
      match Next(s, keys[0])
      case Exit => Exited(s, keys[1..])
      case Proceed(t) => Run(t, keys[1..])
  }

  /** Every key in `keys` is a character or a backspace. */
  predicate EditKeys(keys: seq<Key>) {
    forall i :: 0 <= i < |keys| ==> keys[i].Char? || keys[i].Backspace?
  }

  /**
   * The text `buf` becomes when the edits `keys` are applied to it in order:
   * a character appends itself, a backspace removes the last character if
   * there is one.
   */
  function Edited(buf: string, keys: seq<Key>): string
    requires EditKeys(keys)
    decreases |keys|
  {
    if keys == [] then buf
    else
      var before := Edited(buf, keys[..|keys| - 1]);
      match keys[|keys| - 1]
      case Char(c) => before + [c]
      case _ => Pop(before)
  }

  /** Every key in `keys` is a character. */
  predicate CharKeys(keys: seq<Key>) {
    forall i :: 0 <= i < |keys| ==> keys[i].Char?
  }

  /** The characters of the character keys `keys`, in order. */
  function Chars(keys: seq<Key>): (r: string)
    requires CharKeys(keys)
    ensures |r| == |keys|
    ensures forall i :: 0 <= i < |keys| ==> r[i] == keys[i].c
  {
    if keys == [] then "" else [keys[0].c] + Chars(keys[1..])
  }

  /** Outside the new-entry form the three draft buffers are empty. */
  predicate NoStaleDraft(s: State) {
    !Drafting(s.mode) ==> s.newTitle == "" && s.newUsername == "" && s.newPassword == ""
  }
}
