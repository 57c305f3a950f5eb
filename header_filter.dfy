/**
 * The filter panel of the header (`src/components/header/Filter/Filter.tsx`):
 * a working copy of the creation-date range and of the importance flags,
 * seeded from the committed state, edited by the calendars and checkboxes, and
 * pushed to the parent only by Apply.
 */
module HeaderFilter {
  import opened Wrappers
  import opened Dates
  import opened Importance
  import opened FilterModel

  class Filter {
    /** The parent whose state the panel reads as props and writes through its setters. */
    const host: Host

    var startDate: Option<Date>
    var endDate: Option<Date>
    var radioInputs: Flags

    function Snapshot(): (s: Session)
      reads this, host
    {
      Session(Working(startDate, endDate, radioInputs), host.Snapshot())
    }

    /** Mounting the panel: the working copy starts as the committed period and importance. */
    constructor (host: Host)
      ensures this.host == host
      ensures startDate == At(host.createdAtPeriod, 0) && endDate == At(host.createdAtPeriod, 1)
      ensures radioInputs == host.importance
      ensures Snapshot() == SeedFromCommitted(host.Snapshot())
    {
      this.host := host;
      startDate := At(host.createdAtPeriod, 0);
      endDate := At(host.createdAtPeriod, 1);
      radioInputs := host.importance;
    }

    /** Picking a start day (`Some`) or clearing the start calendar (`None`). */
    method OnStartDateChange(date: Option<Date>)
      modifies this
      ensures startDate == date
      ensures endDate == old(endDate) && radioInputs == old(radioInputs)
      ensures unchanged(host)
      ensures Snapshot() == Step(old(Snapshot()), StartDateChange(date))
    {
      startDate := date;
    }

    /** Picking an end day (`Some`) or clearing the end calendar (`None`). */
    method OnEndDateChange(date: Option<Date>)
      modifies this
      ensures endDate == date
      ensures startDate == old(startDate) && radioInputs == old(radioInputs)
      ensures unchanged(host)
      ensures Snapshot() == Step(old(Snapshot()), EndDateChange(date))
    {
      endDate := date;
    }

    /** The start calendar's `disabledDate`, over the current working end date. */
    predicate DisabledStartDate(current: Date)
      reads this
      ensures !DisabledStartDate(current) <==> 0 <= current.year && (endDate.None? || NotAfter(current, endDate.value))
    {
      FilterModel.DisabledStartDate(current, endDate)
    }

    /** The end calendar's `disabledDate`, over the current working start date. */
    predicate DisabledEndDate(current: Date)
      reads this
      ensures !DisabledEndDate(current) <==> current.year <= 9999 && (startDate.None? || NotAfter(startDate.value, current))
    {
      FilterModel.DisabledEndDate(current, startDate)
    }

    /** Cancel button and close icon: start the closing animation, nothing else. */
    method HandleClose()
      modifies host
      ensures !host.fade
      ensures host.createdAtPeriod == old(host.createdAtPeriod) && host.importance == old(host.importance)
      ensures unchanged(this)
      ensures Snapshot() == Step(old(Snapshot()), Close)
    {
      host.fade := false;
    }

    /** Apply: commit the working range and flags together, then close. */
    method OnApplyButtonClick()
      modifies host
      ensures host.createdAtPeriod == [startDate, endDate]
      ensures host.importance == radioInputs
      ensures !host.fade
      ensures unchanged(this)
      ensures Snapshot() == Step(old(Snapshot()), ApplyClick)
    {
      host.createdAtPeriod := [startDate, endDate];
      HandleClose();
      host.importance := radioInputs;
    }

    /** A checkbox: the flag it names takes its new checked value; the others stay. */
    method OnRadioChange(name: Level, checked: bool)
      modifies this
      ensures Get(radioInputs, name) == checked
      ensures forall other: Level :: other != name ==> Get(radioInputs, other) == Get(old(radioInputs), other)
      ensures startDate == old(startDate) && endDate == old(endDate)
      ensures unchanged(host)
      ensures Snapshot() == Step(old(Snapshot()), RadioChange(name, checked))
    {
      radioInputs := Set(radioInputs, name, checked);
    }
  }
}
