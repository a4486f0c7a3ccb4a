/**
 * The application tracker hook: the signed-in user's applications, a loading flag,
 * and the requests sent to the record store, including the deadline reminder that an
 * application schedules. Store outcomes, fresh ids and the current time are arguments.
 */
module Applications {
  import opened Wrappers
  import opened Text
  import opened Seqs
  import opened Time
  import opened UserTypes
  import OpportunityCard

  /** A request made to the record store. */
  datatype ApplicationCall =
    | ListApplications(userId: string)
    | CreateApplication(application: Application)
    | CreateNotification(notification: Notification)
    | UpdateApplication(id: string, status: ApplicationStatus, notes: Option<string>, updatedAt: string)
    | DeleteApplication(id: string)

  /** The record `applyToOpportunity` builds: status `applied`, no notes, the deadline only if given. */
  function NewApplication(id: string, userId: string, opportunityId: string, title: string, source: string,
                          deadline: Option<string>): (a: Application)
    ensures a.id == id && a.userId == userId && a.opportunityId == opportunityId
    ensures a.opportunityTitle == title && a.opportunitySource == source
    ensures a.appliedAt.None? && a.updatedAt.None?
    ensures a.status == Applied && a.notes.None?
    ensures a.deadline.Some? <==> Truthy(deadline)
    ensures a.deadline.Some? ==> a.deadline == deadline
  {
    Application(id, userId, opportunityId, title, source, Applied, None, None, None, OrNull(deadline))
  }

  /**
   * When the reminder for a deadline fires: one day before it, and only if a deadline
   * was given and that moment is still in the future. `deadlineTime` is the instant the
   * deadline text denotes.
   */
  function ReminderTime(deadline: Option<string>, deadlineTime: int, now: int): (r: Option<int>)
    ensures r.Some? <==> Truthy(deadline) && deadlineTime - MillisPerDay > now
    ensures r.Some? ==> r.value == deadlineTime - MillisPerDay
  {
    if Truthy(deadline) && deadlineTime - MillisPerDay > now then Some(deadlineTime - MillisPerDay) else None
  }

  /**
   * A reminder is scheduled exactly when the deadline is given and the card would show
   * "n days left" or a date (more than one day to go), and at the moment it fires the
   * card reads "Tomorrow", as the reminder's message says.
   */
  lemma ReminderAgreesWithCard(deadline: Option<string>, deadlineTime: int, now: int, localeDate: int -> string)
    requires Truthy(deadline)
    ensures var l := OpportunityCard.FormatDeadline(deadlineTime, now, localeDate);
      ReminderTime(deadline, deadlineTime, now).Some? <==> (l.DaysLeft? || l.OnDate?)
    ensures ReminderTime(deadline, deadlineTime, now).Some? ==>
      OpportunityCard.FormatDeadline(deadlineTime, ReminderTime(deadline, deadlineTime, now).value, localeDate)
        == OpportunityCard.Tomorrow
  {
    OpportunityCard.FormatDeadlineByTimeLeft(deadlineTime, now, localeDate);
    var r := ReminderTime(deadline, deadlineTime, now);
    if r.Some? {
      OpportunityCard.FormatDeadlineByTimeLeft(deadlineTime, r.value, localeDate);
    }
  }

  /** A deadline two days ahead gets a reminder one day before it; one half a day ahead gets none. */
  lemma ReminderExamples(deadline: string, now: int)
    requires deadline != ""
    ensures ReminderTime(Some(deadline), now + 2 * MillisPerDay, now) == Some(now + MillisPerDay)
    ensures ReminderTime(Some(deadline), now + MillisPerDay / 2, now) == None
  {
  }

  /** The reminder notification for an application. */
  function ReminderNotification(id: string, userId: string, opportunityId: string, title: string,
                                at: int): (n: Notification)
    ensures n.kind == DeadlineReminder && !n.isRead && n.scheduledFor == Some(at)
    ensures n.id == id && n.userId == userId && n.opportunityId == Some(opportunityId)
    ensures n.title == "Application Deadline Reminder"
    ensures n.message == "Your application for \"" + title + "\" is due tomorrow!"
    ensures Contains(n.message, title)
  {
    ContainsMiddle("Your application for \"", title, "\" is due tomorrow!");
    Notification(id, userId, DeadlineReminder, "Application Deadline Reminder",
                 "Your application for \"" + title + "\" is due tomorrow!",
                 Some(opportunityId), false, Some(at), None, None)
  }

  /**
   * `prev.map(app => app.id === id ? {...app, status, notes: notes || app.notes, updatedAt} : app)`:
   * only the entries with that id change, and in them only status, notes and update time.
   */
  function WithStatus(apps: seq<Application>, id: string, status: ApplicationStatus, notes: Option<string>,
                      updatedAt: string): (r: seq<Application>)
    ensures |r| == |apps|
    ensures forall i :: 0 <= i < |apps| && apps[i].id != id ==> r[i] == apps[i]
    ensures forall i :: 0 <= i < |apps| && apps[i].id == id ==>
      r[i] == apps[i].(status := status, notes := if Truthy(notes) then notes else apps[i].notes,
                       updatedAt := Some(updatedAt))
  {
    if apps == [] then []
    else
      var a := apps[0];
      var a' := if a.id == id then
        a.(status := status, notes := if Truthy(notes) then notes else a.notes, updatedAt := Some(updatedAt))
      else a;
      [a'] + WithStatus(apps[1..], id, status, notes, updatedAt)
  }

  /** `prev.filter(app => app.id !== id)`: exactly the entries with that id go, the rest keep their order. */
  function WithoutApplication(apps: seq<Application>, id: string): (r: seq<Application>)
    ensures IsSubsequence(r, apps)
    ensures forall a :: a in r <==> a in apps && a.id != id
    ensures forall a :: multiset(r)[a] == if a.id == id then 0 else multiset(apps)[a]
  {
    var p := (a: Application) => a.id != id;
    FilterIsSubsequence(apps, p);
    forall a | a in apps && p(a) ensures a in Filter(apps, p) {
      FilterKeeps(apps, p, a);
    }
    forall a ensures multiset(Filter(apps, p))[a] == if a.id == id then 0 else multiset(apps)[a] {
      FilterMultiset(apps, p, a);
    }
    Filter(apps, p)
  }

  class ApplicationsHook {
    /** `user?.id`; `None` when nobody is signed in. */
    const userId: Option<string>
    var applications: seq<Application>
    var isLoading: bool
    var storeCalls: seq<ApplicationCall>

    constructor (userId: Option<string>)
      ensures this.userId == userId
      ensures applications == [] && isLoading && storeCalls == []
    {
      this.userId := userId;
      applications := [];
      isLoading := true;
      storeCalls := [];
    }

    predicate SignedIn()
    {
      Truthy(userId)
    }

    /**
     * `fetchApplications`: signed out it does nothing; signed in, the user's applications
     * replace the local list, or a failed listing leaves it as it was, and loading ends.
     */
    method FetchApplications(listed: Result<seq<Application>, string>)
      modifies this
      ensures !SignedIn() ==> applications == old(applications) && isLoading == old(isLoading) &&
                              storeCalls == old(storeCalls)
      ensures SignedIn() ==> !isLoading && storeCalls == old(storeCalls) + [ListApplications(userId.value)]
      ensures SignedIn() ==> applications == if listed.Ok? then listed.value else old(applications)
    {
      if !SignedIn() {
        return;
      }
      isLoading := true;
      storeCalls := storeCalls + [ListApplications(userId.value)];
      if listed.Ok? {
        applications := listed.value;
      }
      isLoading := false;
    }

    /** The effect run when the user changes: signed out it empties the list, signed in it fetches. */
    method SyncWithUser(listed: Result<seq<Application>, string>)
      modifies this
      ensures !isLoading
      ensures !SignedIn() ==> applications == [] && storeCalls == old(storeCalls)
      ensures SignedIn() ==> storeCalls == old(storeCalls) + [ListApplications(userId.value)] &&
                             applications == if listed.Ok? then listed.value else old(applications)
    {
      if !SignedIn() {
        applications := [];
        isLoading := false;
        return;
      }
      FetchApplications(listed);
    }

    /**
     * `applyToOpportunity`: creates the application and, once that succeeded, puts it
     * first in the local list (no uniqueness check), then creates the reminder
     * notification when `ReminderTime` gives one. A failed application create leaves the
     * list unchanged; a failed notification create keeps the new application. Either
     * error is passed on. Signed out, nothing happens.
     */
    method ApplyToOpportunity(opportunityId: string, title: string, source: string, deadline: Option<string>,
                              deadlineTime: int, now: int, freshId: string, freshNotificationId: string,
                              created: Outcome<string>, notified: Outcome<string>)
      returns (r: Result<Option<Application>, string>)
      modifies this
      ensures isLoading == old(isLoading)
      ensures !SignedIn() ==> r == Ok(None) && applications == old(applications) && storeCalls == old(storeCalls)
      ensures SignedIn() && created.Fail? ==>
        var a := NewApplication(freshId, userId.value, opportunityId, title, source, deadline);
        r == Err(created.error) && applications == old(applications) &&
        storeCalls == old(storeCalls) + [CreateApplication(a)]
      ensures SignedIn() && created.Pass? ==>
        var a := NewApplication(freshId, userId.value, opportunityId, title, source, deadline);
        var reminder := ReminderTime(deadline, deadlineTime, now);
        applications == [a] + old(applications) &&
        (reminder.None? ==> r == Ok(Some(a)) && storeCalls == old(storeCalls) + [CreateApplication(a)]) &&
        (reminder.Some? ==>
          var n := ReminderNotification(freshNotificationId, userId.value, opportunityId, title, reminder.value);
          storeCalls == old(storeCalls) + [CreateApplication(a), CreateNotification(n)] &&
          r == if notified.Pass? then Ok(Some(a)) else Err(notified.error))
    {
      if !SignedIn() {
        return Ok(None);
      }
      var a := NewApplication(freshId, userId.value, opportunityId, title, source, deadline);
      storeCalls := storeCalls + [CreateApplication(a)];
      if created.Fail? {
        return Err(created.error);
      }
      applications := [a] + applications;
      var reminder := ReminderTime(deadline, deadlineTime, now);
      if reminder.Some? {
        var n := ReminderNotification(freshNotificationId, userId.value, opportunityId, title, reminder.value);
        storeCalls := storeCalls + [CreateNotification(n)];
        if notified.Fail? {
          return Err(notified.error);
        }
      }
      r := Ok(Some(a));
    }

    /**
     * `updateApplicationStatus`: sends the new status, notes (null unless given) and the
     * time `sentAt` to the store and, once that succeeded, updates the matching local
     * entries with the later time `updatedAt`, keeping their old notes when none are
     * given. The two times are separate readings of the clock. A failure leaves the list
     * unchanged.
     */
    method UpdateApplicationStatus(id: string, status: ApplicationStatus, notes: Option<string>, sentAt: string,
                                   updatedAt: string, updated: Outcome<string>) returns (r: Outcome<string>)
      modifies this
      ensures isLoading == old(isLoading) && r == updated
      ensures storeCalls == old(storeCalls) + [UpdateApplication(id, status, OrNull(notes), sentAt)]
      ensures applications == if updated.Pass? then WithStatus(old(applications), id, status, notes, updatedAt)
                              else old(applications)
    {
      storeCalls := storeCalls + [UpdateApplication(id, status, OrNull(notes), sentAt)];
      if updated.Fail? {
        return updated;
      }
      applications := WithStatus(applications, id, status, notes, updatedAt);
      r := Pass;
    }

    /**
     * `deleteApplication`: deletes the application from the store and, once that
     * succeeded, drops the entries with that id. A failure leaves the list unchanged.
     */
    method DeleteApplication(id: string, deleted: Outcome<string>) returns (r: Outcome<string>)
      modifies this
      ensures isLoading == old(isLoading) && r == deleted
      ensures storeCalls == old(storeCalls) + [ApplicationCall.DeleteApplication(id)]
      ensures applications == if deleted.Pass? then WithoutApplication(old(applications), id)
                              else old(applications)
    {
      storeCalls := storeCalls + [ApplicationCall.DeleteApplication(id)];
      if deleted.Fail? {
        return deleted;
      }
      applications := WithoutApplication(applications, id);
      r := Pass;
    }
  }

  /** Applying twice to the same opportunity leaves two applications for it. */
  method ApplyTwice(hook: ApplicationsHook, opportunityId: string, title: string, source: string, now: int,
                    freshId1: string, freshId2: string)
    requires hook.SignedIn()
    modifies hook
    ensures |hook.applications| == |old(hook.applications)| + 2
    ensures hook.applications[0].opportunityId == hook.applications[1].opportunityId == opportunityId
  {
    var first := hook.ApplyToOpportunity(opportunityId, title, source, None, 0, now, freshId1, "", Pass, Pass);
    var second := hook.ApplyToOpportunity(opportunityId, title, source, None, 0, now, freshId2, "", Pass, Pass);
  }
}
