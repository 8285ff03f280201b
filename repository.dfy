/** The repository record the search endpoint returns, as the scanner reads
    it. Counts are the values `repo.get(key, 0)` yields; text fields keep
    apart a missing key and a JSON `null`, because `dict.get(key, default)`
    returns the default only for the former. */
module Repository {

  datatype Option<T> = None | Some(value: T)

  /** A text-valued field of the JSON record. */
  datatype JsonText = Missing | Null | Text(value: string)
  {
    /** `repo.get(key, default)`: None stands for Python's `None`. */
    function GetOr(default: string): (r: Option<string>)
      ensures r.None? <==> Null?
    {
      match this
      case Missing => Some(default)
      case Null => None
      case Text(s) => Some(s)
    }

    /** The truth value of `repo.get(key)` in an `if`. */
    predicate IsTruthy()
    {
      Text? && value != ""
    }
  }

  datatype Repo = Repo(
    name: string,
    fullName: string,
    stars: int,          // stargazers_count
    forks: int,          // forks_count
    watchers: int,       // watchers_count
    openIssues: int,     // open_issues_count
    hasWiki: bool,       // has_wiki
    createdAt: JsonText, // created_at, e.g. "2024-01-31T12:00:00Z"
    language: JsonText,
    description: JsonText,
    topics: seq<string>)
}
