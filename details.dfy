/** The feature-detail page: a lookup in the loaded descriptions with a fixed fallback. */
module Details {
  import opened Text

  /** What the page shows for a feature that has no stored description. */
  const NoDetails: string := "<strong>Error:</strong> No details available for this feature."

  /** The parts of the detail page that depend on the request: title, heading and description. */
  datatype DetailsPage = DetailsPage(title: string, heading: string, detail: string)

  /**
   * The detail page of `feature`: never an error; the stored description
   * when there is one, the fallback text otherwise, under a title-cased heading.
   */
  function DetailsFor(details: map<string, string>, feature: string): (p: DetailsPage)
    ensures feature in details ==> p.detail == details[feature]
    ensures feature !in details ==> p.detail == NoDetails
    ensures p.heading == Label(feature) && p.title == p.heading + " Details"
    ensures |p.heading| == |feature| && '_' !in p.heading && Title(p.heading) == p.heading
  {
    var detail := if feature in details then details[feature] else NoDetails;
    DetailsPage(Label(feature) + " Details", Label(feature), detail)
  }
}
