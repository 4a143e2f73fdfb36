/** The search tracker: the query and document titles of the most recent search. */
module SearchTracking {
  import opened Wrappers

  /** What `GetSearchInfoJson` serialises, kept as a record. */
  datatype SearchInfo = SearchInfo(query: string, documents: seq<string>)

  class SearchTracker {
    /** `_currentQuery`, null until the first search is recorded. */
    var currentQuery: Option<string>
    /** `_currentDocuments`, null until the first search is recorded. */
    var currentDocuments: Option<seq<string>>

    constructor ()
      ensures currentQuery.None? && currentDocuments.None?
      ensures GetSearchInfo() == SearchInfo("", [])
    {
      currentQuery, currentDocuments := None, None;
    }

    /** `GetSearchInfoJson()`: the recorded query and documents, "" and [] while nothing is recorded. */
    function GetSearchInfo(): SearchInfo
      reads this
    {
      SearchInfo(currentQuery.GetOr(""), currentDocuments.GetOr([]))
    }

    /** Records a search, replacing the previous one; the documents are kept as a copy. */
    method SetSearchInfo(query: string, documents: seq<string>)
      modifies this
      ensures currentQuery == Some(query) && currentDocuments == Some(documents)
      ensures GetSearchInfo() == SearchInfo(query, documents)
    {
      currentQuery := Some(query);
      currentDocuments := Some(documents);
    }
  }
}
