/**
 * The session record updated in place by the event loop, with its
 * constructor, its two mutators, the per-key dispatch and the loop itself.
 * Each method is tied to the value model in `Session` through `Model()`.
 */
module App {
  import opened Session

  class PassMng {
    var mode: InputMode
    var listState: ListState
    var passwords: seq<Password>
    var searchText: string
    var searchList: seq<Password>
    var newTitle: string
    var newUsername: string
    var newPassword: string

    /** The current fields, as a value. */
    function Model(): State
      reads this
    {
      State(mode, listState, passwords, searchText, searchList, newTitle, newUsername, newPassword)
    }

    /** `PassMng::new`: `Normal` mode, every buffer and list empty. */
    constructor ()
      ensures mode == Normal && listState == DefaultListState
      ensures passwords == [] && searchList == [] && searchText == ""
      ensures newTitle == "" && newUsername == "" && newPassword == ""
      ensures Model() == Initial()
    {
      mode := Normal;
      listState := DefaultListState;
      passwords := [];
      searchText := "";
      searchList := [];
      newTitle := "";
      newUsername := "";
      newPassword := "";
    }

    /** `change_mode`: sets the mode and nothing else. */
    method ChangeMode(m: InputMode)
      modifies this
      ensures Model() == old(Model()).(mode := m)
    {
      mode := m;
    }

    /** `clear_fields`: empties the three draft buffers and nothing else. */
    method ClearFields()
      modifies this
      ensures Model() == Cleared(old(Model()))
    {
      newTitle := "";
      newUsername := "";
      newPassword := "";
    }

    /**
     * One key event of the loop in `run_app`: `exit` when the loop returns,
     * otherwise the fields are updated as the dispatch on the mode says.
     */
    method Step(k: Key) returns (exit: bool)
      modifies this
      ensures exit == Next(old(Model()), k).Exit?
      ensures Model() == if exit then old(Model()) else Next(old(Model()), k).next
    {
      exit := false;
      match mode {
      case Normal =>
        match k {
        case Char('q') => exit := true;
        case Char('s') => ChangeMode(Search);
        case Char('l') => ChangeMode(List);
        case Insert => ChangeMode(Username);
        case _ =>
        }
      case Title =>
        match k {
        case Esc => ClearFields(); ChangeMode(Normal);
        case Char(c) => newTitle := newTitle + [c];
        case Backspace => newTitle := Pop(newTitle);
        case Tab => ChangeMode(Username);
        case _ =>
        }
      case Username =>
        match k {
        case Esc => ClearFields(); ChangeMode(Normal);
        case Char(c) => newUsername := newUsername + [c];
        case Backspace => newUsername := Pop(newUsername);
        case Tab => ChangeMode(Password);
        case BackTab => ChangeMode(Title);
        case _ =>
        }
      case Password =>
        match k {
        case Esc => ClearFields(); ChangeMode(Normal);
        case Char(c) => newPassword := newPassword + [c];
        case Backspace => newPassword := Pop(newPassword);
        case Tab => ChangeMode(Submit);
        case BackTab => ChangeMode(Username);
        case _ =>
        }
      case Submit =>
        match k {
        case Esc => ClearFields(); ChangeMode(Normal);
        case BackTab => ChangeMode(Password);
        case _ =>
        }
      case Search =>
        match k {
        case Esc => ChangeMode(Normal);
        case Char(c) => searchText := searchText + [c];
        case Backspace => searchText := Pop(searchText);
        case _ =>
        }
      case List =>
        match k {
        case Esc => ChangeMode(Normal);
        case _ =>
        }
      }
    }

    /**
     * The loop of `run_app` over the key events `keys`. It returns after
     * `used` keys when `exited`; otherwise every key was read and the loop
     * waits for the next one. Either way it agrees with `Run`.
     */
    method RunApp(keys: seq<Key>) returns (exited: bool, used: nat)
      modifies this
      ensures used <= |keys|
      ensures !exited ==> used == |keys|
      ensures Run(old(Model()), keys) == if exited then Exited(Model(), keys[used..]) else Pending(Model())
    {
      exited, used := false, 0;
      while used < |keys|
        invariant used <= |keys|
        invariant Run(old(Model()), keys) == Run(Model(), keys[used..])
        decreases |keys| - used
      {
        ghost var before := Model();
        assert keys[used..][1..] == keys[used + 1..];
        var exit := Step(keys[used]);
        used := used + 1;
        if exit {
          assert Run(before, keys[used - 1..]) == Exited(Model(), keys[used..]);
          exited := true;
          return;
        }
      }
    }
  }
}
