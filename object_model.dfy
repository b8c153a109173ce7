/** The structures the serialiser builds (POData's ODataEntry, ODataFeed, ODataLink, ODataMediaLink,
    ODataProperty, ODataURL and ODataURLCollection). Fields the serialiser leaves null are `None`. */
module ObjectModel {
  import opened Wrappers

  /** ODataConstants::ODATA_RELATED_NAMESPACE, the prefix of a navigation link's relation name. */
  const RelatedNamespace: string := "http://schemas.microsoft.com/ado/2007/08/dataservices/related/"
  /** ODataConstants::ATOM_LINK_NEXT_ATTRIBUTE_STRING, the name of a next-page link. */
  const NextLinkName: string := "next"
  const SelfLinkName: string := "self"
  const EntryMimeType: string := "application/atom+xml;type=entry"
  const FeedMimeType: string := "application/atom+xml;type=feed"

  datatype ODataProperty = ODataProperty(name: string, value: Option<string>, typeName: string)

  datatype ODataMediaLink = ODataMediaLink(
    name: string, editLink: string, srcLink: string, contentType: string, eTag: string)

  datatype ODataLink = ODataLink(
    name: string,
    title: Option<string>,
    linkType: Option<string>,
    url: string,
    isExpanded: Option<bool>,
    isCollection: Option<bool>,
    expandedResult: Option<ExpandedResult>)

  /** What an expanded navigation link carries: the entry of a to-one property or the feed of a
      to-many one. */
  datatype ExpandedResult = EntryResult(entry: ODataEntry) | FeedResult(feed: ODataFeed)

  datatype ODataEntry = ODataEntry(
    resourceSetName: string,
    id: string,
    title: string,
    entryType: string,
    propertyContent: seq<ODataProperty>,
    isMediaLinkEntry: bool,
    editLink: string,
    mediaLink: Option<ODataMediaLink>,
    mediaLinks: seq<ODataMediaLink>,
    links: seq<ODataLink>)

  datatype ODataFeed = ODataFeed(
    title: string,
    id: string,
    selfLink: ODataLink,
    rowCount: Option<int>,
    /** One slot per entry object, in input order; a null entry object gives a null entry. */
    entries: seq<Option<ODataEntry>>,
    nextPageLink: Option<ODataLink>)

  datatype ODataURL = ODataURL(url: Option<string>)

  datatype ODataURLCollection = ODataURLCollection(
    urls: seq<ODataURL>, nextPageLink: Option<ODataLink>, count: Option<int>)

  /** A link with only a name and a url set, as the next-page links are built. */
  function PlainLink(name: string, url: string): ODataLink {
    ODataLink(name, None, None, url, None, None, None)
  }
}
