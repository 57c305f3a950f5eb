/**
 * The item-detail editor (`src/components/body/TodoItemDetail.tsx`): a
 * Viewing/Editing toggle over a local buffer (`newText`, `newImportance`,
 * `textFirstEdit`). Confirming an edit dispatches one `UPDATE` action; the
 * store that consumes it is outside this model, so the dispatched actions are
 * kept in an outbound sequence.
 */
module ItemDetail {
  import opened Dates
  import opened Importance

  /** The props: one task as the list shows it. */
  datatype Task = Task(
    id: int, taskName: string, status: string, createdAt: string, updatedAt: string, importance: Level)

  /** The action `updateData` dispatches. */
  datatype Action = Update(id: int, newText: string, newDate: string, newImportance: Level)

  /** The component's state plus everything it has dispatched so far. */
  datatype Editor = Editor(
    edit: bool, textFirstEdit: bool, newText: string, newImportance: Level, dispatched: seq<Action>)

  /**
   * The user events the component handles. `EditClick` is the EDIT/OK button;
   * `now` is the clock's ISO timestamp at that moment.
   */
  datatype Event =
    | EditClick(now: string)
    | CheckEvent(chosen: Level)
    | TextareaChange(value: string)
    | TextareaFocus

  /** Mounting: Viewing, first focus still pending, buffer seeded from the item, nothing dispatched. */
  function Mount(t: Task): (s: Editor)
    ensures !s.edit && s.textFirstEdit && s.dispatched == []
    ensures s.newText == t.taskName && s.newImportance == t.importance
  {
    Editor(false, true, t.taskName, t.importance, [])
  }

  /**
   * `getDateOfLastUpdate`: the first ten characters of the ISO timestamp
   * (`slice(0, 10)`, which also accepts a shorter string).
   */
  function DateOfLastUpdate(now: string): (r: string)
    ensures r <= now
    ensures |r| == if |now| < 10 then |now| else 10
  {
    if |now| <= 10 then now else now[..10]
  }

  /** For a timestamp that starts with a `YYYY-MM-DD` day, the update date is that day. */
  lemma DateOfLastUpdateIsDay(d: Date, rest: string)
    requires Formattable(d)
    ensures DateOfLastUpdate(Format(d) + rest) == Format(d)
  {
  }

  /**
   * `handleCheckEvent`: single choice with "click again to turn off". Choosing
   * the current level (or `'none'`) gives `'none'`; choosing another level
   * selects it.
   */
  function ToggleLevel(current: Level, chosen: Level): (r: Level)
    ensures r == NoImportance <==> chosen == current || chosen == NoImportance
    ensures r != NoImportance ==> r == chosen
  {
    if chosen == current then NoImportance else chosen
  }

  /**
   * Choosing the same level twice gives back the starting level exactly when
   * that level was `'none'` or the chosen one.
   */
  lemma ToggleTwice(current: Level, chosen: Level)
    ensures ToggleLevel(ToggleLevel(current, chosen), chosen) == current
            <==> current == NoImportance || current == chosen
  {
  }

  const LabelPrefix: string := "중요도 "

  /** The Viewing text for the importance: `'중요도 ' + level`, or `'중요도 없음'` for `'none'`. */
  function ImportanceLabel(l: Level): (s: string)
    ensures |s| > |LabelPrefix| && s[..|LabelPrefix|] == LabelPrefix
    ensures s[|LabelPrefix|..] == if l == NoImportance then "없음" else Name(l)
  {
    if l != NoImportance then LabelPrefix + Name(l) else "중요도 없음"
  }

  /** Distinct levels read differently. */
  lemma ImportanceLabelInjective(a: Level, b: Level)
    ensures ImportanceLabel(a) == ImportanceLabel(b) <==> a == b
  {
  }

  /**
   * One handler. React's setters inside a handler all read the state the
   * handler started from. Only EDIT/OK changes the mode, and only confirming
   * dispatches; the first-focus flag can only be cleared.
   */
  function Step(t: Task, s: Editor, e: Event): (r: Editor)
    ensures r.edit == (if e.EditClick? then !s.edit else s.edit)
    ensures r.dispatched == s.dispatched || (e.EditClick? && s.edit && |r.dispatched| == |s.dispatched| + 1)
    ensures r.textFirstEdit ==> s.textFirstEdit
    ensures e.EditClick? ==> r.newText == s.newText && r.newImportance == s.newImportance
  {
    match e
    case EditClick(now) =>
      if !s.edit then s.(edit := true)
      else s.(dispatched := s.dispatched + [Update(t.id, s.newText, DateOfLastUpdate(now), s.newImportance)],
              edit := false)
    case CheckEvent(chosen) => s.(newImportance := ToggleLevel(s.newImportance, chosen))
    case TextareaChange(value) => s.(newText := value)
    case TextareaFocus => s.(newText := if s.textFirstEdit then "" else s.newText, textFirstEdit := false)
  }

  function Run(t: Task, s: Editor, evs: seq<Event>): (r: Editor)
    decreases |evs|
  {
    if evs == [] then s else Run(t, Step(t, s, evs[0]), evs[1..])
  }

  lemma {:induction false} RunAppend(t: Task, s: Editor, evs: seq<Event>, e: Event)
    ensures Run(t, s, evs + [e]) == Step(t, Run(t, s, evs), e)
    decreases |evs|
  {
    if evs == [] {
      assert [] + [e] == [e];
    } else {
      assert (evs + [e])[0] == evs[0] && (evs + [e])[1..] == evs[1..] + [e];
      RunAppend(t, Step(t, s, evs[0]), evs[1..], e);
    }
  }

  /** How many EDIT/OK clicks a sequence holds. */
  function Clicks(evs: seq<Event>): (n: nat)
    ensures n <= |evs|
    decreases |evs|
  {
    if evs == [] then 0 else (if evs[0].EditClick? then 1 else 0) + Clicks(evs[1..])
  }

  // ---------------------------------------------------------------------------
  // Dispatching
  // ---------------------------------------------------------------------------

  /**
   * Dispatched actions are only ever appended, and every action the editor
   * dispatches carries its own task's id.
   */
  lemma {:induction false} DispatchOnlyAppends(t: Task, s: Editor, evs: seq<Event>)
    ensures s.dispatched <= Run(t, s, evs).dispatched
    ensures forall i :: |s.dispatched| <= i < |Run(t, s, evs).dispatched| ==>
              Run(t, s, evs).dispatched[i].id == t.id
    decreases |evs|
  {
    if evs != [] {
      DispatchOnlyAppends(t, Step(t, s, evs[0]), evs[1..]);
    }
  }

  /**
   * The EDIT/OK button alternates between entering Editing and confirming:
   * counting the click that opened the current edit, every second click
   * dispatches exactly one `UPDATE`, and nothing else dispatches.
   */
  lemma {:induction false} ClicksAlternate(t: Task, s: Editor, evs: seq<Event>)
    ensures var k := (if s.edit then 1 else 0) + Clicks(evs);
      Run(t, s, evs).edit == (k % 2 == 1)
      && |Run(t, s, evs).dispatched| == |s.dispatched| + k / 2
    decreases |evs|
  {
    if evs != [] {
      ClicksAlternate(t, Step(t, s, evs[0]), evs[1..]);
    }
  }

  /**
   * Confirming dispatches the buffer as it stands and today's date, even when
   * nothing was edited: there is no check for changes.
   */
  lemma ConfirmWithoutChanges(t: Task, now: string)
    ensures Run(t, Mount(t), [EditClick(now), EditClick(now)]).dispatched
            == [Update(t.id, t.taskName, DateOfLastUpdate(now), t.importance)]
    ensures !Run(t, Mount(t), [EditClick(now), EditClick(now)]).edit
  {
    var editing := Step(t, Mount(t), EditClick(now));
    assert Run(t, Mount(t), [EditClick(now), EditClick(now)]) == Run(t, editing, [EditClick(now)]);
    assert Run(t, editing, [EditClick(now)]) == Step(t, editing, EditClick(now));
  }

  // ---------------------------------------------------------------------------
  // The first-focus rule
  // ---------------------------------------------------------------------------

  /**
   * `textFirstEdit` is still set after a run exactly when it was set before and
   * the run held no focus: once cleared it is never set again, not even when
   * Editing is entered anew.
   */
  lemma {:induction false} FirstEditOnlyUntilFocus(t: Task, s: Editor, evs: seq<Event>)
    ensures Run(t, s, evs).textFirstEdit <==> s.textFirstEdit && TextareaFocus !in evs
    decreases |evs|
  {
    if evs != [] {
      FirstEditOnlyUntilFocus(t, Step(t, s, evs[0]), evs[1..]);
      assert TextareaFocus in evs <==> evs[0] == TextareaFocus || TextareaFocus in evs[1..] by {
        assert evs == [evs[0]] + evs[1..];
      }
    }
  }

  /**
   * After the first focus, no later focus, click or importance choice changes
   * the text: only typing does.
   */
  lemma {:induction false} TextSurvivesLaterFocus(t: Task, s: Editor, evs: seq<Event>)
    requires !s.textFirstEdit
    requires forall i :: 0 <= i < |evs| ==> !evs[i].TextareaChange?
    ensures Run(t, s, evs).newText == s.newText
    decreases |evs|
  {
    if evs != [] {
      TextSurvivesLaterFocus(t, Step(t, s, evs[0]), evs[1..]);
    }
  }

  /**
   * The first focus after mounting clears the text, whatever the item's name
   * was and whatever happened before it.
   */
  lemma FirstFocusClears(t: Task, evs: seq<Event>)
    requires TextareaFocus !in evs
    ensures Run(t, Mount(t), evs + [TextareaFocus]).newText == ""
  {
    RunAppend(t, Mount(t), evs, TextareaFocus);
    FirstEditOnlyUntilFocus(t, Mount(t), evs);
  }

  /** Text typed after the first focus survives a second focus. */
  lemma TypedTextSurvivesSecondFocus(t: Task, now: string, typed: string)
    ensures Run(t, Mount(t), [EditClick(now), TextareaFocus, TextareaChange(typed), TextareaFocus]).newText
            == typed
  {
    var editing := Step(t, Mount(t), EditClick(now));
    var focused := Step(t, editing, TextareaFocus);
    var typedIn := Step(t, focused, TextareaChange(typed));
    assert Run(t, Mount(t), [EditClick(now), TextareaFocus, TextareaChange(typed), TextareaFocus])
        == Run(t, editing, [TextareaFocus, TextareaChange(typed), TextareaFocus]);
    assert Run(t, editing, [TextareaFocus, TextareaChange(typed), TextareaFocus])
        == Run(t, focused, [TextareaChange(typed), TextareaFocus]);
    assert Run(t, focused, [TextareaChange(typed), TextareaFocus]) == Run(t, typedIn, [TextareaFocus]);
    assert Run(t, typedIn, [TextareaFocus]) == Step(t, typedIn, TextareaFocus);
  }

  // ---------------------------------------------------------------------------
  // The component
  // ---------------------------------------------------------------------------

  class TodoItemDetail {
    const id: int
    const taskName: string
    const status: string
    const createdAt: string
    const updatedAt: string
    const importance: Level

    var edit: bool
    var textFirstEdit: bool
    var newText: string
    var newImportance: Level
    /** Stands in for the store's `dispatch`: every action dispatched, in order. */
    var dispatched: seq<Action>

    function Props(): (t: Task)
    {
      Task(id, taskName, status, createdAt, updatedAt, importance)
    }

    function Snapshot(): (s: Editor)
      reads this
    {
      Editor(edit, textFirstEdit, newText, newImportance, dispatched)
    }

    /** Mounting: Viewing, first focus pending, buffer seeded from the item's name and importance. */
    constructor (t: Task)
      ensures Props() == t
      ensures !edit && textFirstEdit
      ensures newText == t.taskName && newImportance == t.importance
      ensures dispatched == []
      ensures Snapshot() == Mount(t)
    {
      id, taskName, status, createdAt, updatedAt, importance :=
        t.id, t.taskName, t.status, t.createdAt, t.updatedAt, t.importance;
      edit, textFirstEdit := false, true;
      newText, newImportance := t.taskName, t.importance;
      dispatched := [];
    }

    /**
     * EDIT/OK. From Viewing: enter Editing and dispatch nothing. From Editing:
     * dispatch one `UPDATE` with the buffer and today's date, then back to
     * Viewing. The buffer and the first-focus flag are never touched.
     */
    method HandleEdit(now: string)
      modifies this
      ensures edit == !old(edit)
      ensures dispatched == if old(edit) then old(dispatched) + [Update(id, newText, DateOfLastUpdate(now), newImportance)]
                            else old(dispatched)
      ensures textFirstEdit == old(textFirstEdit)
      ensures newText == old(newText) && newImportance == old(newImportance)
      ensures Snapshot() == Step(Props(), old(Snapshot()), EditClick(now))
    {
      if !edit {
        edit := !edit;
        return;
      }
      if edit {
        UpdateData(now);
        edit := !edit;
      }
    }

    /** `updateData`: dispatch the buffer with today's date. */
    method UpdateData(now: string)
      modifies this
      ensures dispatched == old(dispatched) + [Update(id, newText, DateOfLastUpdate(now), newImportance)]
      ensures edit == old(edit) && textFirstEdit == old(textFirstEdit)
      ensures newText == old(newText) && newImportance == old(newImportance)
    {
      dispatched := dispatched + [Update(id, newText, DateOfLastUpdate(now), newImportance)];
    }

    /** An importance checkbox: select the chosen level, or turn it off if it was already selected. */
    method HandleCheckEvent(chosen: Level)
      modifies this
      ensures newImportance == (if chosen == old(newImportance) then NoImportance else chosen)
      ensures edit == old(edit) && textFirstEdit == old(textFirstEdit)
      ensures newText == old(newText) && dispatched == old(dispatched)
      ensures Snapshot() == Step(Props(), old(Snapshot()), CheckEvent(chosen))
    {
      newImportance := if chosen == newImportance then NoImportance else chosen;
    }

    /** Typing: the text becomes the textarea's value; nothing else changes. */
    method HandleTextareaOnChange(value: string)
      modifies this
      ensures newText == value
      ensures edit == old(edit) && textFirstEdit == old(textFirstEdit)
      ensures newImportance == old(newImportance) && dispatched == old(dispatched)
      ensures Snapshot() == Step(Props(), old(Snapshot()), TextareaChange(value))
    {
      newText := value;
    }

    /** Focusing the textarea: clear the text on the first focus only. */
    method HandleTextareaFocus()
      modifies this
      ensures newText == if old(textFirstEdit) then "" else old(newText)
      ensures !textFirstEdit
      ensures edit == old(edit) && newImportance == old(newImportance) && dispatched == old(dispatched)
      ensures Snapshot() == Step(Props(), old(Snapshot()), TextareaFocus)
    {
      if textFirstEdit {
        newText := "";
      }
      textFirstEdit := false;
    }
  }
}
