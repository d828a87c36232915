/**
 * The client's edit-history reducer (`toneReducer` of useToneReducer.js): a total
 * transition function over past/present/future stacks of text snapshots, plus the
 * orthogonal `loading`, `error` and `lastTone` fields.
 */
module ToneHistory {
  import opened Options

  /** The `{formality, emotion}` pair recorded by APPLY_TONE_CHANGE, as the caller sent it. */
  datatype ToneChoice = ToneChoice(formality: string, emotion: string)

  datatype State = State(
    past: seq<string>,          // oldest first
    present: string,
    future: seq<string>,        // nearest undo first
    loading: bool,
    error: Option<string>,
    lastTone: Option<ToneChoice>)

  /** The action types of `ACTIONS`, with their payloads; `Unrecognised` is any other type. */
  datatype Action =
    | SetText(text: string)
    | ApplyToneChange(newText: string, formality: string, emotion: string)
    | Undo
    | Redo
    | Reset
    | SetLoading(isLoading: bool)
    | SetError(message: string)
    | ClearError
    | LoadHistory(snapshots: seq<string>)
    | Unrecognised

  const DefaultText: string :=
    "Hello! I would like to request a meeting to discuss our upcoming project collaboration. Please let me know when you might be available."

  function InitialState(): State {
    State([], DefaultText, [], false, None, None)
  }

  /** The history sequence the application persists after every change: past, present, future. */
  function Timeline(s: State): (t: seq<string>)
    ensures |t| == |s.past| + 1 + |s.future| && t[|s.past|] == s.present
  {
    s.past + [s.present] + s.future
  }

  /** Everything but the orthogonal `loading` and `error` flags. */
  function History(s: State): (seq<string>, string, seq<string>, Option<ToneChoice>) {
    (s.past, s.present, s.future, s.lastTone)
  }

  /** `toneReducer(state, action)`. */
  function Reduce(s: State, a: Action): (r: State)
    ensures a.Undo? || a.Redo? ==> Timeline(r) == Timeline(s)
    ensures a.SetLoading? || a.SetError? || a.ClearError? || a.Unrecognised? ==> History(r) == History(s)
    ensures !a.ApplyToneChange? && !a.Reset? ==> r.lastTone == s.lastTone
    ensures !a.SetLoading? && !a.SetError? ==> r.loading == s.loading
  {
    match a
    case SetText(text) =>
      s.(past := s.past + [s.present], present := text, future := [], error := None)
    case ApplyToneChange(newText, formality, emotion) =>
      s.(past := s.past + [s.present], present := newText, future := [],
         lastTone := Some(ToneChoice(formality, emotion)), error := None)
    case Undo =>
      if |s.past| == 0 then s
      else
        var previous := s.past[|s.past| - 1];
        var newPast := s.past[..|s.past| - 1];
        assert s.past == newPast + [previous];
        s.(past := newPast, present := previous, future := [s.present] + s.future, error := None)
    case Redo =>
      if |s.future| == 0 then s
      else
        s.(past := s.past + [s.present], present := s.future[0], future := s.future[1..], error := None)
    case Reset =>
      var firstText := if |s.past| > 0 then s.past[0] else "";
      s.(past := [], present := firstText, future := [], lastTone := None, error := None)
    case SetLoading(isLoading) =>
      s.(loading := isLoading)
    case SetError(message) =>
      s.(error := Some(message), loading := false)
    case ClearError =>
      s.(error := None)
    case LoadHistory(snapshots) =>
      if |snapshots| == 0 then s
      else
        var middle := |snapshots| / 2;
        s.(past := snapshots[..middle], present := snapshots[middle],
           future := snapshots[middle + 1..], error := None)
    case Unrecognised =>
      s
  }

  /** Applies a list of actions in order, as successive dispatches do. */
  function Run(s: State, actions: seq<Action>): State
    decreases |actions|
  {
    if actions == [] then s else Run(Reduce(s, actions[0]), actions[1..])
  }

  function Repeat(a: Action, n: nat): (r: seq<Action>)
    ensures |r| == n
    ensures forall i :: 0 <= i < n ==> r[i] == a
  {
    if n == 0 then [] else [a] + Repeat(a, n - 1)
  }

  // ---------------------------------------------------------------- initial state

  /** A fresh editor holds only the default text and has nothing to undo or redo. */
  lemma InitialStateIsEmptyHistory()
    ensures InitialState().past == [] && InitialState().future == []
    ensures !InitialState().loading && InitialState().error == None && InitialState().lastTone == None
    ensures Timeline(InitialState()) == [DefaultText]
    ensures Reduce(InitialState(), Undo) == InitialState()
    ensures Reduce(InitialState(), Redo) == InitialState()
  {
  }

  // ---------------------------------------------------------------- new edits

  /** SET_TEXT pushes the old present, installs the payload and kills the redo branch. */
  lemma SetTextEffect(s: State, text: string)
    ensures var r := Reduce(s, SetText(text));
      && r.past == s.past + [s.present] && r.present == text && r.future == []
      && r.error == None && r.loading == s.loading && r.lastTone == s.lastTone
      && Timeline(r) == s.past + [s.present, text]
  {
  }

  /** APPLY_TONE_CHANGE is SET_TEXT of the new text, plus recording the tone. */
  lemma ApplyToneChangeIsSetTextWithTone(s: State, newText: string, formality: string, emotion: string)
    ensures Reduce(s, ApplyToneChange(newText, formality, emotion))
         == Reduce(s, SetText(newText)).(lastTone := Some(ToneChoice(formality, emotion)))
  {
  }

  /** Undoing an edit returns to the text before it; the edit becomes the only redo step. */
  lemma UndoRevertsEdit(s: State, text: string)
    ensures Reduce(Reduce(s, SetText(text)), Undo) == s.(future := [text], error := None)
  {
  }

  /** An edit made after undoing discards the whole redo branch: a following REDO does nothing. */
  lemma EditAfterUndoDiscardsFuture(s: State, text: string)
    ensures var r := Reduce(Reduce(s, Undo), SetText(text));
      r.future == [] && Reduce(r, Redo) == r
  {
  }

  /**
   * SET_TEXT pushes the present unconditionally, so setting the same text again leaves
   * the present duplicated on top of the past.
   */
  lemma SetTextMayDuplicate(s: State)
    ensures var r := Reduce(s, SetText(s.present));
      |r.past| > 0 && r.past[|r.past| - 1] == r.present
  {
  }

  // ---------------------------------------------------------------- undo and redo

  lemma UndoEffect(s: State)
    ensures |s.past| == 0 ==> Reduce(s, Undo) == s
    ensures |s.past| > 0 ==> var r := Reduce(s, Undo);
      && r.present == s.past[|s.past| - 1] && r.past == s.past[..|s.past| - 1]
      && r.future == [s.present] + s.future && r.error == None
  {
  }

  lemma RedoEffect(s: State)
    ensures |s.future| == 0 ==> Reduce(s, Redo) == s
    ensures |s.future| > 0 ==> var r := Reduce(s, Redo);
      && r.present == s.future[0] && r.past == s.past + [s.present]
      && r.future == s.future[1..] && r.error == None
  {
  }

  /** REDO undoes UNDO: only the error is cleared. */
  lemma UndoThenRedo(s: State)
    requires |s.past| > 0
    ensures Reduce(Reduce(s, Undo), Redo) == s.(error := None)
  {
    var u := Reduce(s, Undo);
    assert u.past + [u.present] == s.past;
  }

  /** UNDO undoes REDO: only the error is cleared. */
  lemma RedoThenUndo(s: State)
    requires |s.future| > 0
    ensures Reduce(Reduce(s, Redo), Undo) == s.(error := None)
  {
    var u := Reduce(s, Redo);
    assert [u.present] + u.future == s.future;
  }

  /** Any run of UNDO/REDO moves within the same timeline. */
  lemma {:induction false} NavigationPreservesTimeline(s: State, actions: seq<Action>)
    requires forall i :: 0 <= i < |actions| ==> actions[i].Undo? || actions[i].Redo?
    ensures Timeline(Run(s, actions)) == Timeline(s)
    ensures |Run(s, actions).past| + 1 + |Run(s, actions).future| == |s.past| + 1 + |s.future|
    ensures Run(s, actions).lastTone == s.lastTone
    decreases |actions|
  {
    if actions != [] {
      NavigationPreservesTimeline(Reduce(s, actions[0]), actions[1..]);
    }
  }

  /** The state k undos lead to: the last k past entries, in order, start the future. */
  function Undone(s: State, k: nat): State
    requires 0 < k <= |s.past|
  {
    var n := |s.past|;
    s.(past := s.past[..n - k], present := s.past[n - k],
       future := s.past[n - k + 1..] + [s.present] + s.future, error := None)
  }

  lemma UndoneStep(s: State, k: nat)
    requires 1 < k <= |s.past|
    ensures Undone(Reduce(s, Undo), k - 1) == Undone(s, k)
  {
    var p, n := s.past, |s.past|;
    var u := Reduce(s, Undo);
    UndoEffect(s);
    assert u.past[..n - 1 - (k - 1)] == p[..n - k];
    assert u.past[n - 1 - (k - 1)] == p[n - k];
    assert u.past[n - k + 1..] + [u.present] == p[n - k + 1..];
  }

  lemma {:induction false} RunUndos(s: State, k: nat)
    requires 0 < k <= |s.past|
    ensures Run(s, Repeat(Undo, k)) == Undone(s, k)
    decreases k
  {
    var u := Reduce(s, Undo);
    var acts := Repeat(Undo, k);
    assert acts[0] == Undo && acts[1..] == Repeat(Undo, k - 1);
    assert Run(s, acts) == Run(u, Repeat(Undo, k - 1));
    if k > 1 {
      UndoEffect(s);
      RunUndos(u, k - 1);
      UndoneStep(s, k);
    } else {
      UndoEffect(s);
      assert s.past[|s.past|..] == [];
    }
  }

  /** Undoing k times moves the last k past entries, in order, to the front of the future. */
  lemma UndoMany(s: State, k: nat)
    requires 0 < k <= |s.past|
    ensures var r := Run(s, Repeat(Undo, k));
      && r.past == s.past[..|s.past| - k]
      && r.present == s.past[|s.past| - k]
      && r.future == s.past[|s.past| - k + 1..] + [s.present] + s.future
      && r.error == None && r.loading == s.loading && r.lastTone == s.lastTone
  {
    RunUndos(s, k);
    var r, d := Run(s, Repeat(Undo, k)), Undone(s, k);
    assert r == d;
    assert r.past == d.past && r.present == d.present && r.future == d.future;
  }

  /** Undoing k steps and then redoing k steps restores the history exactly. */
  lemma {:induction false} UndoManyThenRedoMany(s: State, k: nat)
    requires 0 < k <= |s.past|
    ensures Run(Run(s, Repeat(Undo, k)), Repeat(Redo, k)) == s.(error := None)
    decreases k
  {
    var u := Reduce(s, Undo);
    assert Repeat(Undo, k) == [Undo] + Repeat(Undo, k - 1);
    assert Repeat(Redo, k) == Repeat(Redo, k - 1) + [Redo] by {
      RepeatSnoc(Redo, k);
    }
    if k == 1 {
      UndoThenRedo(s);
    } else {
      UndoManyThenRedoMany(u, k - 1);
      RunAppend(Run(u, Repeat(Undo, k - 1)), Repeat(Redo, k - 1), [Redo]);
      UndoThenRedo(s);
    }
  }

  lemma {:induction false} RepeatSnoc(a: Action, n: nat)
    requires n > 0
    ensures Repeat(a, n) == Repeat(a, n - 1) + [a]
  {
    if n > 1 {
      RepeatSnoc(a, n - 1);
    }
  }

  lemma {:induction false} RunAppend(s: State, xs: seq<Action>, ys: seq<Action>)
    ensures Run(s, xs + ys) == Run(Run(s, xs), ys)
    decreases |xs|
  {
    if xs == [] {
      assert xs + ys == ys;
    } else {
      assert (xs + ys)[0] == xs[0];
      assert (xs + ys)[1..] == xs[1..] + ys;
      RunAppend(Reduce(s, xs[0]), xs[1..], ys);
    }
  }

  // ---------------------------------------------------------------- reset

  /** RESET returns to the oldest recorded snapshot, or to "" when nothing was recorded. */
  lemma ResetEffect(s: State)
    ensures var r := Reduce(s, Reset);
      && r.present == (if |s.past| > 0 then s.past[0] else "")
      && r.past == [] && r.future == [] && r.lastTone == None && r.error == None
      && r.loading == s.loading
      && Timeline(r) == [r.present]
  {
  }

  /** The text RESET returns to is the one reached by undoing every step. */
  lemma ResetIsFullUndo(s: State)
    requires |s.past| > 0
    ensures Reduce(s, Reset).present == Run(s, Repeat(Undo, |s.past|)).present
  {
    UndoMany(s, |s.past|);
  }

  /** The reset scenario: edits "A","B","C" then RESET gives "A" with empty stacks. */
  lemma ResetExample(s: State)
    requires s.past == ["A", "B"] && s.present == "C"
    ensures Reduce(s, Reset).present == "A"
    ensures Reduce(s, Reset).past == [] && Reduce(s, Reset).future == []
  {
  }

  // ---------------------------------------------------------------- flags

  /** SET_LOADING, SET_ERROR and CLEAR_ERROR touch only the flags. */
  lemma FlagActionsEffect(s: State, isLoading: bool, message: string)
    ensures Reduce(s, SetLoading(isLoading)) == s.(loading := isLoading)
    ensures Reduce(s, SetError(message)) == s.(error := Some(message), loading := false)
    ensures Reduce(s, ClearError) == s.(error := None)
    ensures Reduce(s, Unrecognised) == s
  {
  }

  // ---------------------------------------------------------------- persisted history

  /** LOAD_HISTORY splits a non-empty list at its floor midpoint and is the identity on []. */
  lemma LoadHistoryEffect(s: State, snapshots: seq<string>)
    ensures |snapshots| == 0 ==> Reduce(s, LoadHistory(snapshots)) == s
    ensures |snapshots| > 0 ==> var r := Reduce(s, LoadHistory(snapshots)); var m := |snapshots| / 2;
      && r.past == snapshots[..m] && r.present == snapshots[m] && r.future == snapshots[m + 1..]
      && |r.past| == m && (|r.future| == m || |r.future| + 1 == m)
      && Timeline(r) == snapshots
      && r.error == None && r.loading == s.loading && r.lastTone == s.lastTone
  {
    if |snapshots| > 0 {
      var m := |snapshots| / 2;
      assert snapshots == snapshots[..m] + [snapshots[m]] + snapshots[m + 1..];
    }
  }

  /** Reloading the persisted timeline of any state, into any state, restores the timeline. */
  lemma PersistedTimelineReloads(saved: State, s: State)
    ensures Timeline(Reduce(s, LoadHistory(Timeline(saved)))) == Timeline(saved)
  {
    LoadHistoryEffect(s, Timeline(saved));
  }

  /** When as many snapshots lie behind as ahead, reloading also restores the position. */
  lemma BalancedTimelineReloadsExactly(saved: State, s: State)
    requires |saved.past| == |saved.future|
    ensures var r := Reduce(s, LoadHistory(Timeline(saved)));
      r.past == saved.past && r.present == saved.present && r.future == saved.future
  {
    var t := Timeline(saved);
    assert |t| / 2 == |saved.past|;
    assert t[..|saved.past|] == saved.past;
    assert t[|saved.past| + 1..] == saved.future;
  }

  /** Reloading does not keep the position in general: a state at the newest snapshot moves back. */
  lemma ReloadMovesPresent()
    ensures var saved := State(["a", "b"], "c", [], false, None, None);
      Reduce(InitialState(), LoadHistory(Timeline(saved))).present == "b"
  {
    var saved := State(["a", "b"], "c", [], false, None, None);
    assert Timeline(saved) == ["a", "b", "c"];
  }

  /** The load scenario: five snapshots split as two behind, one current, two ahead. */
  lemma LoadHistoryExample(s: State)
    ensures var r := Reduce(s, LoadHistory(["a", "b", "c", "d", "e"]));
      r.past == ["a", "b"] && r.present == "c" && r.future == ["d", "e"]
  {
  }
}
