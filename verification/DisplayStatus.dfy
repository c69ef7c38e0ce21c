/**
 What status an opportunity is shown with on a given day, and whether a citizen
 can see it then. The portal derives the one by comparing `yyyy-MM-dd` strings;
 the browser's query decides the other by comparing dates in the database.
 */
module DisplayStatus {
  import opened Wrappers
  import opened CivilDate
  import opened FileNames
  import opened IsoDates

  datatype Status =
    | Deleted | Draft | Published | Suspended | TestPassed | TestPending | TestRejected
    | Scheduled | ScheduledSuspension

  /** A missing or an empty string is no date. */
  predicate Given(date: Option<string>) {
    date.Some? && date.value != ""
  }

  function Derive(status: Status, dateFrom: string, referenceDate: Option<string>,
          suspendFrom: Option<string>): Status
  {
    if !status.Published? || !Given(referenceDate) then status
    else if Less(referenceDate.value, dateFrom) then Scheduled
    else if Given(suspendFrom) && Less(referenceDate.value, suspendFrom.value) then ScheduledSuspension
    else status
  }

  /** The stages of a published opportunity, in the order it goes through them. */
  function Stage(status: Status): nat {
    match status
    case Scheduled => 0
    case ScheduledSuspension => 1
    case _ => 2
  }

  /** A published opportunity moves forward through its stages as the reference date does, never back. */
  lemma MovesForward(dateFrom: string, suspendFrom: Option<string>, before: string, after: string)
    requires before != "" && (before == after || Less(before, after))
    ensures Stage(Derive(Published, dateFrom, Some(before), suspendFrom)) <=
      Stage(Derive(Published, dateFrom, Some(after), suspendFrom))
  {
    if before != after {
      if Less(after, dateFrom) {
        LessTransitive(before, after, dateFrom);
      }
      if Given(suspendFrom) && Less(after, suspendFrom.value) {
        LessTransitive(before, after, suspendFrom.value);
      }
    }
  }

  /** The stored dates of an opportunity. */
  datatype Opportunity = Opportunity(status: Status, from: Civil, to: Option<Civil>, suspend: Option<Civil>)

  predicate DatesWritable(o: Opportunity) {
    Writable(o.from) && (o.to.Some? ==> Writable(o.to.value)) && (o.suspend.Some? ==> Writable(o.suspend.value))
  }

  function ShownStatus(o: Opportunity, today: Civil): Status
    requires DatesWritable(o) && Writable(today)
  {
    Derive(o.status, IsoDate(o.from), Some(IsoDate(today)),
           if o.suspend.Some? then Some(IsoDate(o.suspend.value)) else None)
  }

  /** The rows the citizen's query finds: dates are compared by the database, on the calendar. */
  predicate Visible(o: Opportunity, today: Civil)
    requires DatesWritable(o) && Writable(today)
  {
    o.status.Published? && DayOf(o.from) <= DayOf(today) && (o.to.None? || DayOf(today) <= DayOf(o.to.value))
  }

  /** The status shown, told by the calendar instead of by strings. */
  lemma ShownOnCalendar(o: Opportunity, today: Civil)
    requires DatesWritable(o) && Writable(today)
    ensures ShownStatus(o, today) ==
      if !o.status.Published? then o.status
      else if DayOf(today) < DayOf(o.from) then Scheduled
      else if o.suspend.Some? && DayOf(today) < DayOf(o.suspend.value) then ScheduledSuspension
      else Published
  {
    TextOrderIsCalendarOrder(today, o.from);
    if o.suspend.Some? {
      TextOrderIsCalendarOrder(today, o.suspend.value);
    }
  }

  /** Without a reference date, and for an opportunity that is not published, the status is shown as it is stored. */
  lemma ShownAsStored(status: Status, dateFrom: string, referenceDate: Option<string>, suspendFrom: Option<string>)
    requires !status.Published? || referenceDate.None? || referenceDate == Some("")
    ensures Derive(status, dateFrom, referenceDate, suspendFrom) == status
  {
  }

  /** A published opportunity is seen by citizens exactly when it is not shown as scheduled and has not ended. */
  lemma VisibleIffNotScheduled(o: Opportunity, today: Civil)
    requires DatesWritable(o) && Writable(today) && o.status.Published?
    ensures Visible(o, today) <==>
      ShownStatus(o, today) != Scheduled && (o.to.None? || DayOf(today) <= DayOf(o.to.value))
  {
    ShownOnCalendar(o, today);
  }

  /** Once seen, an opportunity without an end date stays seen, whatever suspension it is scheduled for. */
  lemma StaysVisible(o: Opportunity, today: Civil, later: Civil)
    requires DatesWritable(o) && Writable(today) && Writable(later) && DayOf(today) <= DayOf(later)
    requires o.to.None? && Visible(o, today)
    ensures Visible(o, later) && ShownStatus(o, later) != Scheduled
    ensures ShownStatus(o, today) == Published ==> ShownStatus(o, later) == Published
  {
    ShownOnCalendar(o, today);
    ShownOnCalendar(o, later);
  }
}
