/** The signed-in user's records: profile, preferences, applications, bookmarks, notifications. */
module UserTypes {
  import opened Wrappers
  import OpportunityTypes

  datatype Theme = Light | Dark | System

  datatype UserPreferences = UserPreferences(
    emailNotifications: bool,
    deadlineReminders: bool,
    categories: seq<string>,
    sources: seq<string>,
    theme: Theme)

  /**
   * A profile record. `createdAt` and `updatedAt` are optional here because a profile
   * built locally before the store answers does not carry them.
   */
  datatype User = User(
    id: string,
    userId: string,
    email: string,
    displayName: Option<string>,
    avatarUrl: Option<string>,
    preferences: Option<UserPreferences>,
    createdAt: Option<string>,
    updatedAt: Option<string>)

  datatype ApplicationStatus = Applied | Shortlisted | Rejected | Accepted {
    function Name(): string {
      match this
      case Applied => "applied"
      case Shortlisted => "shortlisted"
      case Rejected => "rejected"
      case Accepted => "accepted"
    }
  }

  /** An opportunity's listing status is `not_applied` or one of the application statuses. */
  lemma ListingStatusExtendsApplicationStatus(l: OpportunityTypes.ListingStatus)
    ensures l.NotApplied? <==> forall s: ApplicationStatus :: s.Name() != l.Name()
  {
    if !l.NotApplied? {
      var s := match l
        case ListedApplied => Applied
        case ListedShortlisted => Shortlisted
        case ListedRejected => Rejected
        case ListedAccepted => Accepted;
      assert s.Name() == l.Name();
    }
  }

  /** `appliedAt` and `updatedAt` are optional: a locally built application lacks both. */
  datatype Application = Application(
    id: string,
    userId: string,
    opportunityId: string,
    opportunityTitle: string,
    opportunitySource: string,
    status: ApplicationStatus,
    appliedAt: Option<string>,
    updatedAt: Option<string>,
    notes: Option<string>,
    deadline: Option<string>)

  /** `createdAt` is optional: a locally built bookmark lacks it. */
  datatype Bookmark = Bookmark(
    id: string,
    userId: string,
    opportunityId: string,
    opportunityTitle: string,
    opportunitySource: string,
    opportunityCategory: string,
    opportunityDeadline: Option<string>,
    createdAt: Option<string>)

  datatype NotificationType = DeadlineReminder | ApplicationUpdate

  /** `scheduledFor` is the instant in milliseconds; its ISO rendering is not modelled. */
  datatype Notification = Notification(
    id: string,
    userId: string,
    kind: NotificationType,
    title: string,
    message: string,
    opportunityId: Option<string>,
    isRead: bool,
    scheduledFor: Option<int>,
    sentAt: Option<string>,
    createdAt: Option<string>)
}
