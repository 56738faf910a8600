/**
 * What the key dispatch of the password manager guarantees: the effect of
 * each key in each mode, and what holds of any sequence of keys fed to the
 * event loop.
 */
module SessionProperties {
  import opened Session

  // ---------------------------------------------------------------------
  // One key
  // ---------------------------------------------------------------------

  /** The loop returns on `q` in `Normal` and on nothing else. */
  lemma ExitOnlyOnQuitInNormal(s: State, k: Key)
    ensures Next(s, k) == Exit <==> s.mode == Normal && k == Char('q')
  {
  }

  /** The shortcuts of `Normal`: `s` searches, `l` lists, `Insert` opens the form at the username field. */
  lemma NormalShortcuts(s: State)
    requires s.mode == Normal
    ensures Next(s, Char('s')) == Proceed(s.(mode := Search))
    ensures Next(s, Char('l')) == Proceed(s.(mode := List))
    ensures Next(s, Insert) == Proceed(s.(mode := Username))
  {
  }

  /** In `Normal` every key other than the shortcuts and `q` changes nothing. */
  lemma NormalOtherKeysInert(s: State, k: Key)
    requires s.mode == Normal
    requires k != Char('q') && k != Char('s') && k != Char('l') && k != Insert
    ensures Next(s, k) == Proceed(s)
  {
  }

  /**
   * In a mode with a buffer, a character (`q` included) is appended to that
   * buffer and to nothing else, and the mode stays.
   */
  lemma TypingAppends(s: State, c: char)
    requires Editable(s.mode)
    ensures Next(s, Char(c)) == Proceed(WithBuffer(s, Buffer(s) + [c]))
  {
  }

  /** In a mode with a buffer, backspace drops that buffer's last character, if any. */
  lemma BackspacePops(s: State)
    requires Editable(s.mode)
    ensures Next(s, Backspace) == Proceed(WithBuffer(s, Pop(Buffer(s))))
    ensures Buffer(s) == "" ==> Next(s, Backspace) == Proceed(s)
  {
    if Buffer(s) == "" {
      WithOwnBuffer(s);
    }
  }

  /** A character followed by a backspace restores the state. */
  lemma TypeThenBackspaceRestores(s: State, c: char)
    requires Editable(s.mode)
    ensures Next(s, Char(c)).Proceed?
    ensures Next(Next(s, Char(c)).next, Backspace) == Proceed(s)
  {
    var t := WithBuffer(s, Buffer(s) + [c]);
    assert Pop(Buffer(t)) == Buffer(s);
    BackspacePops(t);
    WithBufferTwice(s, Buffer(s) + [c], Buffer(s));
    WithOwnBuffer(s);
  }

  /** The fields of the new-entry form, in the order `Tab` walks them. */
  const FieldOrder: seq<InputMode> := [Title, Username, Password, Submit]

  /**
   * `Tab` moves one field forward and `BackTab` one field back in
   * `FieldOrder`, stopping at either end; neither touches a buffer.
   */
  lemma TabFollowsFieldOrder(s: State, i: nat)
    requires i < |FieldOrder| && s.mode == FieldOrder[i]
    ensures Next(s, Tab) == Proceed(s.(mode := FieldOrder[if i + 1 < |FieldOrder| then i + 1 else i]))
    ensures Next(s, BackTab) == Proceed(s.(mode := FieldOrder[if i > 0 then i - 1 else i]))
  {
  }

  /** `Tab` then `BackTab` from a text field returns to the same state. */
  lemma TabThenBackTabReturns(s: State)
    requires s.mode == Title || s.mode == Username || s.mode == Password
    ensures Next(s, Tab).Proceed?
    ensures Next(Next(s, Tab).next, BackTab) == Proceed(s)
  {
  }

  /** `BackTab` then `Tab` from any field but the first returns to the same state. */
  lemma BackTabThenTabReturns(s: State)
    requires s.mode == Username || s.mode == Password || s.mode == Submit
    ensures Next(s, BackTab).Proceed?
    ensures Next(Next(s, BackTab).next, Tab) == Proceed(s)
  {
  }

  /** `Esc` in the form returns to `Normal` with the draft emptied and all else kept. */
  lemma CancelDiscardsDraft(s: State)
    requires Drafting(s.mode)
    ensures Next(s, Esc) == Proceed(s.(mode := Normal, newTitle := "", newUsername := "", newPassword := ""))
  {
  }

  /** In `Search`, `Esc` returns to `Normal` keeping the search text, and no key touches the draft. */
  lemma SearchKeys(s: State, k: Key)
    requires s.mode == Search
    ensures Next(s, Esc) == Proceed(s.(mode := Normal))
    ensures Next(s, k).Proceed?
    ensures Next(s, k).next.newTitle == s.newTitle
    ensures Next(s, k).next.newUsername == s.newUsername
    ensures Next(s, k).next.newPassword == s.newPassword
  {
  }

  /** In `Submit`, every key but `Esc` and `BackTab` changes nothing: there is no commit. */
  lemma SubmitInert(s: State, k: Key)
    requires s.mode == Submit && k != Esc && k != BackTab
    ensures Next(s, k) == Proceed(s)
  {
  }

  /**
   * The keys that fall through to `_ => {}` in the text fields and in
   * `Search` change nothing: no stray key discards typed input.
   */
  lemma FallThroughKeysInert(s: State, k: Key)
    requires
      || ((s.mode == Title || s.mode == Username || s.mode == Password) && (k == Insert || k == Other))
      || (s.mode == Title && k == BackTab)
      || (s.mode == Search && (k == Tab || k == BackTab || k == Insert || k == Other))
    ensures Next(s, k) == Proceed(s)
  {
  }

  /** In `List`, `Esc` returns to `Normal` and every other key changes nothing. */
  lemma ListKeys(s: State, k: Key)
    requires s.mode == List
    ensures Next(s, k) == Proceed(if k == Esc then s.(mode := Normal) else s)
  {
  }

  /** No key changes the stored entries, the search results or the list selection. */
  lemma StepKeepsStore(s: State, k: Key)
    ensures Next(s, k).Proceed? ==> Next(s, k).next.passwords == s.passwords
    ensures Next(s, k).Proceed? ==> Next(s, k).next.searchList == s.searchList
    ensures Next(s, k).Proceed? ==> Next(s, k).next.listState == s.listState
  {
  }

  /** Outside the form the draft stays empty, whatever key comes. */
  lemma StepKeepsNoStaleDraft(s: State, k: Key)
    requires NoStaleDraft(s)
    ensures Next(s, k).Proceed? ==> NoStaleDraft(Next(s, k).next)
  {
  }

  // ---------------------------------------------------------------------
  // Buffer helpers
  // ---------------------------------------------------------------------

  /** A single key fed to the loop. */
  lemma RunOne(s: State, k: Key)
    ensures Run(s, [k]) == match Next(s, k)
                           case Exit => Exited(s, [])
                           case Proceed(t) => Pending(t)
  {
    assert [k][1..] == [];
  }

  lemma WithOwnBuffer(s: State)
    requires Editable(s.mode)
    ensures WithBuffer(s, Buffer(s)) == s
  {
  }

  lemma WithBufferTwice(s: State, b1: string, b2: string)
    requires Editable(s.mode)
    ensures Editable(WithBuffer(s, b1).mode)
    ensures WithBuffer(WithBuffer(s, b1), b2) == WithBuffer(s, b2)
  {
  }

  // ---------------------------------------------------------------------
  // Sequences of keys
  // ---------------------------------------------------------------------

  /** Feeding `a` and then `b` to the loop is feeding it `a + b`. */
  lemma {:induction false} RunConcat(s: State, a: seq<Key>, b: seq<Key>)
    ensures Run(s, a + b) == match Run(s, a)
                             case Pending(t) => Run(t, b)
                             case Exited(last, unread) => Exited(last, unread + b)
    decreases |a|
  {
    if a == [] {
      assert a + b == b;
    } else {
      assert (a + b)[0] == a[0];
      assert (a + b)[1..] == a[1..] + b;
      match Next(s, a[0])
      case Exit =>
      case Proceed(t) => RunConcat(t, a[1..], b);
    }
  }

  /**
   * The loop returns only on a `q` read in `Normal`: the keys before it
   * lead to the state it returns in, and the rest stays unread.
   */
  lemma {:induction false} ExitIsQuitInNormal(s: State, keys: seq<Key>)
    requires Run(s, keys).Exited?
    ensures var n := |keys| - |Run(s, keys).unread| - 1;
      0 <= n < |keys| && keys[n] == Char('q') && Run(s, keys).last.mode == Normal &&
      Run(s, keys[..n]) == Pending(Run(s, keys).last)
    decreases |keys|
  {
    match Next(s, keys[0])
    case Exit =>
      ExitOnlyOnQuitInNormal(s, keys[0]);
      assert |Run(s, keys).unread| == |keys| - 1;
      assert keys[..0] == [];
    case Proceed(t) =>
      ExitIsQuitInNormal(t, keys[1..]);
      var n := |keys| - |Run(s, keys).unread| - 1;
      assert keys[1..][n - 1] == keys[n];
      assert keys[..n][0] == keys[0];
      assert keys[..n][1..] == keys[1..][..n - 1];
  }

  /** A `q` read in `Normal` ends the loop at once, leaving the later keys unread. */
  lemma QuitInNormalExits(s: State, a: seq<Key>, b: seq<Key>)
    requires Run(s, a).Pending? && Run(s, a).last.mode == Normal
    ensures Run(s, a + [Char('q')] + b) == Exited(Run(s, a).last, b)
  {
    assert a + [Char('q')] + b == a + ([Char('q')] + b);
    RunConcat(s, a, [Char('q')] + b);
  }

  /** No sequence of keys changes the stored entries, the search results or the list selection. */
  lemma {:induction false} RunKeepsStore(s: State, keys: seq<Key>)
    ensures Run(s, keys).last.passwords == s.passwords
    ensures Run(s, keys).last.searchList == s.searchList
    ensures Run(s, keys).last.listState == s.listState
    decreases |keys|
  {
    if keys != [] {
      match Next(s, keys[0])
      case Exit =>
      case Proceed(t) =>
        StepKeepsStore(s, keys[0]);
        RunKeepsStore(t, keys[1..]);
    }
  }

  /**
   * Characters and backspaces typed in a mode with a buffer keep that mode
   * and leave that buffer as `Edited` says; nothing else changes.
   */
  lemma {:induction false} EditingMatchesEdited(s: State, keys: seq<Key>)
    requires Editable(s.mode) && EditKeys(keys)
    ensures Run(s, keys) == Pending(WithBuffer(s, Edited(Buffer(s), keys)))
  {
    if keys == [] {
      WithOwnBuffer(s);
    } else {
      var init, k := keys[..|keys| - 1], keys[|keys| - 1];
      assert keys == init + [k];
      assert EditKeys(init);
      EditingMatchesEdited(s, init);
      var t := WithBuffer(s, Edited(Buffer(s), init));
      RunConcat(s, init, [k]);
      assert [k][1..] == [];
      if k.Char? {
        TypingAppends(t, k.c);
        WithBufferTwice(s, Edited(Buffer(s), init), Edited(Buffer(s), init) + [k.c]);
      } else {
        BackspacePops(t);
        WithBufferTwice(s, Edited(Buffer(s), init), Pop(Edited(Buffer(s), init)));
      }
    }
  }

  /** Characters alone only append: `Edited` of character keys is the text followed by them. */
  lemma {:induction false} TypedCharsAppend(buf: string, keys: seq<Key>)
    requires CharKeys(keys)
    ensures EditKeys(keys) && Edited(buf, keys) == buf + Chars(keys)
  {
    if keys != [] {
      var init := keys[..|keys| - 1];
      assert CharKeys(init);
      TypedCharsAppend(buf, init);
      assert Chars(init) + [keys[|keys| - 1].c] == Chars(keys);
    }
  }

  /** Characters typed in a mode with a buffer (`q` among them) are appended to that buffer. */
  lemma TypingRun(s: State, keys: seq<Key>)
    requires Editable(s.mode) && CharKeys(keys)
    ensures Run(s, keys) == Pending(WithBuffer(s, Buffer(s) + Chars(keys)))
  {
    TypedCharsAppend(Buffer(s), keys);
    EditingMatchesEdited(s, keys);
  }

  /**
   * Inside the form, keys other than `Esc` keep the form open, never end the
   * loop and leave the search text alone.
   */
  lemma {:induction false} FormStaysOpen(s: State, keys: seq<Key>)
    requires Drafting(s.mode)
    requires forall i :: 0 <= i < |keys| ==> keys[i] != Esc
    ensures Run(s, keys).Pending?
    ensures Drafting(Run(s, keys).last.mode)
    ensures Run(s, keys).last.searchText == s.searchText
    decreases |keys|
  {
    if keys != [] {
      assert keys[0] != Esc;
      var t := Next(s, keys[0]).next;
      FormStaysOpen(t, keys[1..]);
    }
  }

  /**
   * Opening the form from `Normal`, typing and moving about in it, and
   * cancelling leaves the state as before except for an empty draft.
   */
  lemma InsertThenCancel(s: State, keys: seq<Key>)
    requires s.mode == Normal
    requires forall i :: 0 <= i < |keys| ==> keys[i] != Esc
    ensures Run(s, [Insert] + keys + [Esc]) == Pending(Cleared(s))
  {
    var u := s.(mode := Username);
    NormalShortcuts(s);
    RunOne(s, Insert);
    RunConcat(s, [Insert], keys);
    FormStaysOpen(u, keys);
    RunKeepsStore(u, keys);
    var t := Run(u, keys).last;
    RunConcat(s, [Insert] + keys, [Esc]);
    CancelDiscardsDraft(t);
    RunOne(t, Esc);
  }

  /** The draft is empty outside the form after any sequence of keys that starts there. */
  lemma {:induction false} RunKeepsNoStaleDraft(s: State, keys: seq<Key>)
    requires NoStaleDraft(s)
    ensures NoStaleDraft(Run(s, keys).last)
    decreases |keys|
  {
    if keys != [] {
      StepKeepsNoStaleDraft(s, keys[0]);
      match Next(s, keys[0])
      case Exit =>
      case Proceed(t) => RunKeepsNoStaleDraft(t, keys[1..]);
    }
  }

  /**
   * In every state a session reaches from `PassMng::new`, the draft is empty
   * outside the form: `Insert` always opens an empty form although it does
   * not clear one.
   */
  lemma ReachableHasNoStaleDraft(keys: seq<Key>)
    ensures NoStaleDraft(Run(Initial(), keys).last)
  {
    RunKeepsNoStaleDraft(Initial(), keys);
  }

  /** In a reachable `Normal` state, opening the form and cancelling it changes nothing. */
  lemma InsertThenCancelIsIdentity(s: State, keys: seq<Key>)
    requires s.mode == Normal && NoStaleDraft(s)
    requires forall i :: 0 <= i < |keys| ==> keys[i] != Esc
    ensures Run(s, [Insert] + keys + [Esc]) == Pending(s)
  {
    InsertThenCancel(s, keys);
  }
}
