/** The records of the application (types.ts). */
module Types {
  import opened Wrappers

  /** A post category; `All` is the filter-only pseudo-category, which the
      type of a post's `type` field still admits. */
  datatype ContentType = Leads | Threads | Links | Video | All

  /** A discovered or bookmarked post. `sourceUrl` is the attribution link
      the discovery client adds to the posts it returns. */
  datatype Post = Post(
    id: string,
    authorHandle: string,
    authorName: string,
    avatar: string,
    content: string,
    likes: int,
    replies: int,
    timestamp: string,
    isSaved: bool,
    kind: ContentType,
    sourceUrl: Option<string>)

  datatype SavedSearch = SavedSearch(id: string, query: string, lastRun: string, alertsEnabled: bool)

  /** One history entry; `timestamp` is in epoch milliseconds. */
  datatype SearchLog = SearchLog(id: string, query: string, timestamp: int)

  datatype Intent = LeadsIntent | LongForm | Both

  datatype UserPreferences = UserPreferences(isOnboarded: bool, searchIntent: Option<Intent>)

  datatype TimeFilter = Last24h | Last48h | Last7d | Last30d | Custom
}
