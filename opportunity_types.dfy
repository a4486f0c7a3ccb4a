/** The catalogue's record types: an opportunity and the sidebar's filter record. */
module OpportunityTypes {
  import opened Wrappers

  datatype Category = Internship | Hackathon | Contest | Scholarship {
    /** The string the catalogue stores and the category tabs use as an id. */
    function Name(): string {
      match this
      case Internship => "internship"
      case Hackathon => "hackathon"
      case Contest => "contest"
      case Scholarship => "scholarship"
    }
  }

  datatype Source = Unstop | Devfolio | HackerEarth | OtherSource {
    function Name(): string {
      match this
      case Unstop => "unstop"
      case Devfolio => "devfolio"
      case HackerEarth => "hackerearth"
      case OtherSource => "other"
    }
  }

  datatype Difficulty = Beginner | Intermediate | Advanced {
    function Name(): string {
      match this
      case Beginner => "beginner"
      case Intermediate => "intermediate"
      case Advanced => "advanced"
    }
  }

  /** An opportunity's own application status: the four application statuses and `not_applied`. */
  datatype ListingStatus = NotApplied | ListedApplied | ListedShortlisted | ListedRejected | ListedAccepted {
    function Name(): string {
      match this
      case NotApplied => "not_applied"
      case ListedApplied => "applied"
      case ListedShortlisted => "shortlisted"
      case ListedRejected => "rejected"
      case ListedAccepted => "accepted"
    }
  }

  /** The category a string names, if it names one. */
  function ParseCategory(s: string): (r: Option<Category>)
    ensures r.Some? ==> r.value.Name() == s
    ensures r.None? ==> forall c: Category :: c.Name() != s
  {
    if s == "internship" then Some(Internship)
    else if s == "hackathon" then Some(Hackathon)
    else if s == "contest" then Some(Contest)
    else if s == "scholarship" then Some(Scholarship)
    else None
  }

  /** The source a string names, if it names one. */
  function ParseSource(s: string): (r: Option<Source>)
    ensures r.Some? ==> r.value.Name() == s
    ensures r.None? ==> forall c: Source :: c.Name() != s
  {
    if s == "unstop" then Some(Unstop)
    else if s == "devfolio" then Some(Devfolio)
    else if s == "hackerearth" then Some(HackerEarth)
    else if s == "other" then Some(OtherSource)
    else None
  }

  /** The difficulty a string names, if it names one. */
  function ParseDifficulty(s: string): (r: Option<Difficulty>)
    ensures r.Some? ==> r.value.Name() == s
    ensures r.None? ==> forall c: Difficulty :: c.Name() != s
  {
    if s == "beginner" then Some(Beginner)
    else if s == "intermediate" then Some(Intermediate)
    else if s == "advanced" then Some(Advanced)
    else None
  }

  /** Each enumeration is named injectively, so a name determines its value. */
  lemma NamesRoundTrip(c: Category, s: Source, d: Difficulty)
    ensures ParseCategory(c.Name()) == Some(c)
    ensures ParseSource(s.Name()) == Some(s)
    ensures ParseDifficulty(d.Name()) == Some(d)
  {
  }

  /** Dates are ISO-8601 strings; `isBookmarked` is the flag the catalogue ships with. */
  datatype Opportunity = Opportunity(
    id: string,
    title: string,
    description: string,
    category: Category,
    source: Source,
    deadline: string,
    location: string,
    eligibility: seq<string>,
    difficulty: Difficulty,
    tags: seq<string>,
    applyUrl: string,
    isBookmarked: bool,
    applicationStatus: Option<ListingStatus>,
    createdAt: string,
    updatedAt: string)

  /** Every field is optional; `None` is a key that is absent or `undefined`. */
  datatype OpportunityFilters = OpportunityFilters(
    category: Option<string>,
    source: Option<string>,
    location: Option<string>,
    difficulty: Option<string>,
    deadline: Option<string>,
    search: Option<string>)

  /** The filter record `{}`. */
  const EmptyFilters := OpportunityFilters(None, None, None, None, None, None)
}
