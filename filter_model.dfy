/**
 * The filter panel as values: the panel's working copy of the creation-date
 * range and of the importance flags, the parent's committed state it writes
 * through its setters, and one step per handler. Both filter components
 * (`HeaderFilter`, `LegacyFilter`) run these same handlers; they differ only in
 * how the working importance is seeded when the panel opens.
 */
module FilterModel {
  import opened Wrappers
  import opened Dates
  import opened Importance

  /** The panel's own `useState` fields: `startDate`, `endDate`, `radioInputs`. */
  datatype Working = Working(startDate: Option<Date>, endDate: Option<Date>, radioInputs: Flags)

  /**
   * What the parent owns: the committed period `createdAtPeriod` (a JavaScript
   * array, normally of two entries), the committed importance and `fade`, the
   * flag whose clearing starts the side panel's closing animation.
   */
  datatype Committed = Committed(period: seq<Option<Date>>, importance: Flags, fade: bool)

  datatype Session = Session(working: Working, committed: Committed)

  /** The user events the panel handles. `Close` is the cancel button and the close icon. */
  datatype Event =
    | StartDateChange(picked: Option<Date>)
    | EndDateChange(picked: Option<Date>)
    | RadioChange(name: Level, checked: bool)
    | ApplyClick
    | Close
  {
    /** Events that only edit the working copy. */
    predicate IsEdit()
    {
      StartDateChange? || EndDateChange? || RadioChange?
    }
  }

  /** `period[i]`; an index past the end reads `undefined`, which the panel treats like `null`. */
  function At(period: seq<Option<Date>>, i: nat): (r: Option<Date>)
    ensures i < |period| ==> r == period[i]
    ensures i >= |period| ==> r == None
  {
    if i < |period| then period[i] else None
  }

  /**
   * Opening the header panel: dates and flags copied from the committed state.
   * A committed period of two entries is exactly the working range.
   */
  function SeedFromCommitted(c: Committed): (s: Session)
    ensures s.committed == c
    ensures |c.period| == 2 ==> [s.working.startDate, s.working.endDate] == c.period
    ensures s.working.radioInputs == c.importance
  {
    Session(Working(At(c.period, 0), At(c.period, 1), c.importance), c)
  }

  /** Opening the older panel: dates copied, flags all cleared whatever was committed. */
  function SeedAllOff(c: Committed): (s: Session)
    ensures s.committed == c
    ensures |c.period| == 2 ==> [s.working.startDate, s.working.endDate] == c.period
    ensures forall l: Level :: !Get(s.working.radioInputs, l)
  {
    Session(Working(At(c.period, 0), At(c.period, 1), AllOff), c)
  }

  /**
   * `disabledStartDate`: a day the start calendar refuses. A start day can be
   * picked exactly when its year is not negative and it is not after the
   * working end date (if there is one); a start equal to the end is allowed.
   */
  function DisabledStartDate(current: Date, endDate: Option<Date>): (r: bool)
    ensures !r <==> 0 <= current.year && (endDate.None? || NotAfter(current, endDate.value))
  {
    if current.year < 0 then true
    else match endDate
      case None => false
      case Some(e) => Before(e, current)
  }

  /**
   * `disabledEndDate`: a day the end calendar refuses. An end day can be picked
   * exactly when its year is at most 9999 and it is not before the working
   * start date (if there is one).
   */
  function DisabledEndDate(current: Date, startDate: Option<Date>): (r: bool)
    ensures !r <==> current.year <= 9999 && (startDate.None? || NotAfter(startDate.value, current))
  {
    if current.year > 9999 then true
    else match startDate
      case None => false
      case Some(s) => Before(current, s)
  }

  // ---------------------------------------------------------------------------
  // The calendars' predicates as the code writes them: on the formatted text
  // ---------------------------------------------------------------------------

  /** `date ? … : …` on a stored text: a missing or empty text is falsy. */
  predicate Truthy(t: Option<string>)
  {
    t.Some? && t.value != ""
  }

  /**
   * `disabledStartDate` as written: refuse negative years, then compare the
   * candidate's text with the stored end text using `>`.
   */
  function DisabledStartDateText(currentYear: int, current: string, endDate: Option<string>): (r: bool)
    ensures !r ==> 0 <= currentYear
    ensures !Truthy(endDate) ==> (r <==> currentYear < 0)
  {
    if currentYear < 0 then true
    else Truthy(endDate) && LexLess(endDate.value, current)
  }

  /**
   * `disabledEndDate` as written: refuse years above 9999, then compare the
   * candidate's text with the stored start text using `<`.
   */
  function DisabledEndDateText(currentYear: int, current: string, startDate: Option<string>): (r: bool)
    ensures !r ==> currentYear <= 9999
    ensures !Truthy(startDate) ==> (r <==> currentYear > 9999)
  {
    if currentYear > 9999 then true
    else Truthy(startDate) && LexLess(current, startDate.value)
  }

  predicate FormattableOpt(o: Option<Date>)
  {
    o.None? || Formattable(o.value)
  }

  /** The stored text of an optional day. */
  function FormatOpt(o: Option<Date>): (t: Option<string>)
    requires FormattableOpt(o)
    ensures t.Some? <==> o.Some?
    ensures t.Some? ==> |t.value| == 10
  {
    match o
    case None => None
    case Some(d) => Some(Format(d))
  }

  /** For days with four-digit years, the text comparison refuses exactly the days `DisabledStartDate` refuses. */
  lemma DisabledStartDateMatchesText(current: Date, endDate: Option<Date>)
    requires Formattable(current) && FormattableOpt(endDate)
    ensures DisabledStartDateText(current.year, Format(current), FormatOpt(endDate))
            == DisabledStartDate(current, endDate)
  {
    if endDate.Some? {
      FormatOrder(endDate.value, current);
    }
  }

  /** For days with four-digit years, the text comparison refuses exactly the days `DisabledEndDate` refuses. */
  lemma DisabledEndDateMatchesText(current: Date, startDate: Option<Date>)
    requires Formattable(current) && FormattableOpt(startDate)
    ensures DisabledEndDateText(current.year, Format(current), FormatOpt(startDate))
            == DisabledEndDate(current, startDate)
  {
    if startDate.Some? {
      FormatOrder(current, startDate.value);
    }
  }

  /**
   * The start calendar as written offers a five-digit-year start after the end:
   * the text `"10000-01-01"` is not greater than `"2021-01-01"`, although the
   * day is later, so the working range becomes inverted.
   */
  lemma FiveDigitStartPassesEnd()
    ensures var start, end := Date(10000, 1, 1), Date(2021, 1, 1);
      && !DisabledStartDateText(start.year, "10000-01-01", Some(Format(end)))
      && Before(end, start)
      && DisabledStartDate(start, Some(end))
      && !Ordered(Some(start), Some(end))
  {
    var end := Date(2021, 1, 1);
    assert Format(end)[0] == '2';
    assert !LexLess(Format(end), "10000-01-01");
  }

  /**
   * The end calendar as written offers an end before a five-digit-year start:
   * with no end picked yet, the start calendar offers `10000-01-01`; the end
   * calendar then offers `2021-01-01`, because that text is not less than
   * `"10000-01-01"`, and the working range becomes inverted.
   */
  lemma FiveDigitStartThenEndPasses(s: Session)
    requires s.working.endDate.None?
    ensures var start, end := Date(10000, 1, 1), Date(2021, 1, 1);
      var r := Run(s, [StartDateChange(Some(start)), EndDateChange(Some(end))]);
      && !DisabledStartDateText(start.year, "10000-01-01", None)
      && !DisabledStartDate(start, s.working.endDate)
      && !DisabledEndDateText(end.year, Format(end), Some("10000-01-01"))
      && DisabledEndDate(end, Some(start))
      && r.working.startDate == Some(start) && r.working.endDate == Some(end)
      && !Ordered(r.working.startDate, r.working.endDate)
  {
    var end := Date(2021, 1, 1);
    assert Format(end)[0] == '2';
    assert !LexLess(Format(end), "10000-01-01");
    var s1 := Step(s, StartDateChange(Some(Date(10000, 1, 1))));
    assert Run(s, [StartDateChange(Some(Date(10000, 1, 1))), EndDateChange(Some(end))])
        == Run(s1, [EndDateChange(Some(end))]);
  }

  /**
   * One handler. React's setters inside a handler all read the state the
   * handler started from. Edits touch only the working copy; Apply and Close
   * touch only the parent.
   */
  function Step(s: Session, e: Event): (r: Session)
    ensures e.IsEdit() ==> r.committed == s.committed
    ensures !e.IsEdit() ==> r.working == s.working
    ensures e.Close? ==> r.committed.period == s.committed.period && r.committed.importance == s.committed.importance
    ensures !r.committed.fade ==> !s.committed.fade || e.ApplyClick? || e.Close?
  {
    match e
    case StartDateChange(picked) => s.(working := s.working.(startDate := picked))
    case EndDateChange(picked) => s.(working := s.working.(endDate := picked))
    case RadioChange(name, checked) =>
      s.(working := s.working.(radioInputs := Set(s.working.radioInputs, name, checked)))
    case ApplyClick =>
      s.(committed := Committed([s.working.startDate, s.working.endDate], s.working.radioInputs, false))
    case Close => s.(committed := s.committed.(fade := false))
  }

  /** A sequence of handlers, in order. */
  function Run(s: Session, evs: seq<Event>): (r: Session)
    decreases |evs|
  {
    if evs == [] then s else Run(Step(s, evs[0]), evs[1..])
  }

  lemma {:induction false} RunAppend(s: Session, evs: seq<Event>, e: Event)
    ensures Run(s, evs + [e]) == Step(Run(s, evs), e)
    decreases |evs|
  {
    if evs == [] {
      assert [] + [e] == [e];
    } else {
      assert (evs + [e])[0] == evs[0] && (evs + [e])[1..] == evs[1..] + [e];
      RunAppend(Step(s, evs[0]), evs[1..], e);
    }
  }

  // ---------------------------------------------------------------------------
  // Committed state only changes on Apply
  // ---------------------------------------------------------------------------

  /** Editing the working copy never reaches the parent: committed state is untouched. */
  lemma {:induction false} EditsNeverCommit(s: Session, evs: seq<Event>)
    requires forall i :: 0 <= i < |evs| ==> evs[i].IsEdit()
    ensures Run(s, evs).committed == s.committed
    decreases |evs|
  {
    if evs != [] {
      EditsNeverCommit(Step(s, evs[0]), evs[1..]);
    }
  }

  /**
   * Without Apply, the committed period and importance stay as they were; only
   * `fade` can change, and it can only become false.
   */
  lemma {:induction false} OnlyApplyCommits(s: Session, evs: seq<Event>)
    requires forall i :: 0 <= i < |evs| ==> !evs[i].ApplyClick?
    ensures Run(s, evs).committed.period == s.committed.period
    ensures Run(s, evs).committed.importance == s.committed.importance
    ensures Run(s, evs).committed.fade ==> s.committed.fade
    decreases |evs|
  {
    if evs != [] {
      OnlyApplyCommits(Step(s, evs[0]), evs[1..]);
    }
  }

  /** Cancel after any edits: the parent sees only `fade` cleared. */
  lemma CancelAfterEdits(s: Session, evs: seq<Event>)
    requires forall i :: 0 <= i < |evs| ==> evs[i].IsEdit()
    ensures Run(s, evs + [Close]).committed == s.committed.(fade := false)
  {
    RunAppend(s, evs, Close);
    EditsNeverCommit(s, evs);
  }

  /** Apply after any events commits the final working dates and flags together, and closes. */
  lemma ApplyAfterEdits(s: Session, evs: seq<Event>)
    ensures var w := Run(s, evs).working;
      Run(s, evs + [ApplyClick]).committed == Committed([w.startDate, w.endDate], w.radioInputs, false)
  {
    RunAppend(s, evs, ApplyClick);
  }

  /** Date pickers and the cancel/close buttons leave the working flags alone. */
  lemma {:induction false} NoCheckboxKeepsFlags(s: Session, evs: seq<Event>)
    requires forall i :: 0 <= i < |evs| ==> !evs[i].RadioChange?
    ensures Run(s, evs).working.radioInputs == s.working.radioInputs
    decreases |evs|
  {
    if evs != [] {
      NoCheckboxKeepsFlags(Step(s, evs[0]), evs[1..]);
    }
  }

  /** Header panel: Apply without touching a checkbox commits the importance it was opened with. */
  lemma ApplyWithoutCheckboxKeepsImportance(c: Committed, evs: seq<Event>)
    requires forall i :: 0 <= i < |evs| ==> !evs[i].RadioChange?
    ensures Run(SeedFromCommitted(c), evs + [ApplyClick]).committed.importance == c.importance
  {
    RunAppend(SeedFromCommitted(c), evs, ApplyClick);
    NoCheckboxKeepsFlags(SeedFromCommitted(c), evs);
  }

  /**
   * Older panel: Apply without touching a checkbox commits all-false importance,
   * overwriting whatever importance was committed before.
   */
  lemma ApplyWithoutCheckboxClearsImportance(c: Committed, evs: seq<Event>)
    requires forall i :: 0 <= i < |evs| ==> !evs[i].RadioChange?
    ensures Run(SeedAllOff(c), evs + [ApplyClick]).committed.importance == AllOff
  {
    RunAppend(SeedAllOff(c), evs, ApplyClick);
    NoCheckboxKeepsFlags(SeedAllOff(c), evs);
  }

  /** Applying and reopening the header panel gives back the same working copy. */
  lemma ApplyThenReopen(s: Session)
    ensures SeedFromCommitted(Step(s, ApplyClick).committed).working == s.working
    ensures SeedAllOff(Step(s, ApplyClick).committed).working == s.working.(radioInputs := AllOff)
  {
  }

  // ---------------------------------------------------------------------------
  // The calendars keep the range ordered
  // ---------------------------------------------------------------------------

  /** A range is ordered when, if both ends are set, the start is not after the end. */
  predicate Ordered(start: Option<Date>, end: Option<Date>)
  {
    start.Some? && end.Some? ==> NotAfter(start.value, end.value)
  }

  predicate PeriodOrdered(period: seq<Option<Date>>)
  {
    Ordered(At(period, 0), At(period, 1))
  }

  /** The calendars only offer days their `disabledDate` predicate lets through; clearing is always possible. */
  predicate Offered(w: Working, e: Event)
  {
    match e
    case StartDateChange(Some(d)) => !DisabledStartDate(d, w.endDate)
    case EndDateChange(Some(d)) => !DisabledEndDate(d, w.startDate)
    case _ => true
  }

  /** Every event of the sequence was offered in the state it was taken in. */
  predicate AllOffered(s: Session, evs: seq<Event>)
    decreases |evs|
  {
    evs == [] || (Offered(s.working, evs[0]) && AllOffered(Step(s, evs[0]), evs[1..]))
  }

  /**
   * Picking only what the calendars offer keeps the working range ordered, and
   * so every period Apply commits is ordered too.
   */
  lemma {:induction false} CalendarsKeepRangeOrdered(s: Session, evs: seq<Event>)
    requires Ordered(s.working.startDate, s.working.endDate)
    requires PeriodOrdered(s.committed.period)
    requires AllOffered(s, evs)
    ensures Ordered(Run(s, evs).working.startDate, Run(s, evs).working.endDate)
    ensures PeriodOrdered(Run(s, evs).committed.period)
    decreases |evs|
  {
    if evs != [] {
      var t := Step(s, evs[0]);
      assert Ordered(t.working.startDate, t.working.endDate);
      assert PeriodOrdered(t.committed.period);
      CalendarsKeepRangeOrdered(t, evs[1..]);
    }
  }

  /**
   * The calendars as written, on the formatted text: as long as every picked day
   * and the working dates have four-digit years, what the text comparison lets
   * through is what the day order lets through.
   */
  predicate OfferedByText(w: Working, e: Event)
  {
    match e
    case StartDateChange(Some(d)) =>
      Formattable(d) && FormattableOpt(w.endDate)
      && !DisabledStartDateText(d.year, Format(d), FormatOpt(w.endDate))
    case EndDateChange(Some(d)) =>
      Formattable(d) && FormattableOpt(w.startDate)
      && !DisabledEndDateText(d.year, Format(d), FormatOpt(w.startDate))
    case _ => true
  }

  predicate AllOfferedByText(s: Session, evs: seq<Event>)
    decreases |evs|
  {
    evs == [] || (OfferedByText(s.working, evs[0]) && AllOfferedByText(Step(s, evs[0]), evs[1..]))
  }

  lemma OfferedByTextIsOffered(w: Working, e: Event)
    requires OfferedByText(w, e)
    ensures Offered(w, e)
  {
    match e
    case StartDateChange(Some(d)) => DisabledStartDateMatchesText(d, w.endDate);
    case EndDateChange(Some(d)) => DisabledEndDateMatchesText(d, w.startDate);
    case _ =>
  }

  /**
   * The code's own text comparison keeps the working range and every committed
   * period ordered, provided every picked day has a four-digit year.
   */
  lemma {:induction false} TextCalendarsKeepRangeOrdered(s: Session, evs: seq<Event>)
    requires Ordered(s.working.startDate, s.working.endDate)
    requires PeriodOrdered(s.committed.period)
    requires AllOfferedByText(s, evs)
    ensures Ordered(Run(s, evs).working.startDate, Run(s, evs).working.endDate)
    ensures PeriodOrdered(Run(s, evs).committed.period)
    decreases |evs|
  {
    if evs != [] {
      OfferedByTextIsOffered(s.working, evs[0]);
      var t := Step(s, evs[0]);
      assert Ordered(t.working.startDate, t.working.endDate);
      assert PeriodOrdered(t.committed.period);
      TextCalendarsKeepRangeOrdered(t, evs[1..]);
    }
  }

  /** Opening a panel over an ordered committed period gives an ordered working range. */
  lemma SeedKeepsRangeOrdered(c: Committed)
    requires PeriodOrdered(c.period)
    ensures Ordered(SeedFromCommitted(c).working.startDate, SeedFromCommitted(c).working.endDate)
    ensures Ordered(SeedAllOff(c).working.startDate, SeedAllOff(c).working.endDate)
  {
  }

  // ---------------------------------------------------------------------------
  // The parent's state, written through the setters the panel receives
  // ---------------------------------------------------------------------------

  /** The parent component's `createdAtPeriod`, `importance` and `fade` state. */
  class Host {
    var createdAtPeriod: seq<Option<Date>>
    var importance: Flags
    var fade: bool

    constructor (period: seq<Option<Date>>, importance: Flags, fade: bool)
      ensures createdAtPeriod == period && this.importance == importance && this.fade == fade
    {
      createdAtPeriod := period;
      this.importance := importance;
      this.fade := fade;
    }

    function Snapshot(): (c: Committed)
      reads this
    {
      Committed(createdAtPeriod, importance, fade)
    }
  }
}
