/** What a serialised entry, link and feed look like: the specification the serialiser's methods are
    proved against. Each predicate relates a built object to the values and the environment it was
    built from. */
module Shapes {
  import opened Wrappers
  import opened PhpValues
  import opened Metadata
  import opened ObjectModel
  import opened Uris
  import opened KeyBuilder
  import opened Projection
  import opened Primitives
  import opened Media
  import opened Collaborators
  import opened Paging

  /** The unexpanded link writeTopLevelElement makes for a navigation property: its relation name,
      its title, its Atom type (entry for to-one, feed for to-many) and its URL below the entry's. */
  function NavigationLink(relativeUri: string, prop: ResourceProperty): (l: ODataLink)
    ensures l.name == RelatedNamespace + prop.name && l.title == Some(prop.name)
    ensures l.linkType == Some(EntryMimeType) <==> prop.kind == ResourceReference
    ensures l.linkType == Some(FeedMimeType) <==> prop.kind != ResourceReference
    ensures |l.url| > |relativeUri| && l.url[..|relativeUri|] == relativeUri && l.url[|relativeUri|..] == "/" + prop.name
    ensures l.isExpanded.None? && l.isCollection.None? && l.expandedResult.None?
  {
    assert EntryMimeType[|EntryMimeType| - 1] != FeedMimeType[|FeedMimeType| - 1];
    var propType := if prop.kind == ResourceReference then EntryMimeType else FeedMimeType;
    ODataLink(RelatedNamespace + prop.name, Some(prop.name), Some(propType), relativeUri + "/" + prop.name,
              None, None, None)
  }

  /** The self link of a feed: named "self", titled and addressed by the given identifier. */
  function SelfLink(identifier: string): (l: ODataLink)
    ensures l.name == SelfLinkName && l.title == Some(identifier) && l.url == identifier
    ensures l.linkType.None? && l.isExpanded.None? && l.isCollection.None? && l.expandedResult.None?
  {
    ODataLink(SelfLinkName, Some(identifier), None, identifier, None, None, None)
  }

  /** The row count a feed or URL collection carries: the request's count for $inlinecount queries. */
  function RowCount(request: RequestDescription): (r: Option<int>)
    ensures r.Some? <==> request.queryType == EntitiesWithCount
    ensures r.Some? ==> r.value == request.countValue
  {
    if request.queryType == EntitiesWithCount then Some(request.countValue) else None
  }

  /** Everything of `e` but its links: what writeTopLevelElement computes for `entryObject` of type
      `rt` before it turns to the navigation properties. */
  predicate EntryHeadShape(env: Env, rt: ResourceType, entryObject: Value, e: ODataEntry) {
    rt.resourceSet.Some? &&
    e.resourceSetName == rt.resourceSet.value &&
    EntryInstanceKey(env.service.convertToOData, entryObject, rt, rt.resourceSet.value) == Ok(e.editLink) &&
    e.id == AbsoluteUri(env.absoluteServiceUri, e.editLink) &&
    e.title == rt.name && e.entryType == rt.fullName && e.isMediaLinkEntry == rt.isMediaLinkEntry &&
    MediaData(env.service.streamProvider, entryObject, rt.fullName, e.editLink, rt) == Ok((e.mediaLink, e.mediaLinks)) &&
    PrimitiveProperties(env.service.conversions, env.service.bulkSerialise(entryObject),
                        NonNavigationProperties(rt.allProperties)) == Ok(e.propertyContent)
  }

  /** `e` is the entry written for `entryObject` when the light stack's top names `typeName`. */
  predicate EntryShape(env: Env, typeName: string, entryObject: Value, e: ODataEntry)
    decreases e, 2
  {
    typeName in env.service.resourceTypes &&
    var rt := env.service.resourceTypes[typeName];
    EntryHeadShape(env, rt, entryObject, e) &&
    LinksShape(env, e.editLink, entryObject, NavigationProperties(rt.allProperties), e.links)
  }

  /** One link per navigation property, in order. */
  predicate LinksShape(env: Env, relativeUri: string, entryObject: Value, relProp: seq<ResourceProperty>,
                       links: seq<ODataLink>)
    decreases links, 2
  {
    |links| == |relProp| &&
    forall i :: 0 <= i < |relProp| ==> LinkShape(env, relativeUri, entryObject, relProp[i], links[i])
  }

  /** `link` is the link written for navigation property `prop` of the entry at `relativeUri`:
      the plain navigation link, expanded exactly when the projection tree says so. */
  predicate LinkShape(env: Env, relativeUri: string, entryObject: Value, prop: ResourceProperty, link: ODataLink)
    decreases link, 1
  {
    var plain := NavigationLink(relativeUri, prop);
    var expand := ShouldExpandSegment(env.request.rootProjectionNode, env.stack.segmentNames, prop.name);
    (prop.kind == ResourceReference || prop.kind == ResourceSetReference) &&
    expand.Ok? &&
    link.name == plain.name && link.title == plain.title && link.linkType == plain.linkType && link.url == plain.url &&
    (!expand.value ==> link == plain) &&
    (expand.value ==> ExpandedLinkShape(env, entryObject, prop, link))
  }

  /** An expanded link: a to-one property holding null leaves the link unexpanded; otherwise the link
      is marked expanded (and a collection exactly for to-many) and carries the entry written for the
      property's value, or the feed written for its array with title, id and self link rewritten to
      the property and the link's URL. Both the entry of a to-one link and the first entry of a
      to-many one are written for the property's own type, whose frame is then on top of the stack;
      the types of the further entries of a feed depend on the stack (see `Outcomes`). */
  predicate ExpandedLinkShape(env: Env, entryObject: Value, prop: ResourceProperty, link: ODataLink)
    decreases link, 0
  {
    var value := Property(entryObject, prop.name);
    match link.expandedResult
    case None =>
      prop.kind != ResourceSetReference && !IsSet(value) && link.isExpanded.None? && link.isCollection.None?
    case Some(EntryResult(n)) =>
      prop.kind != ResourceSetReference && link.isExpanded == Some(true) && link.isCollection == Some(false) &&
      EntryShape(env, prop.propertyType.name, value, n)
    case Some(FeedResult(f)) =>
      prop.kind == ResourceSetReference && link.isExpanded == Some(true) && link.isCollection == Some(true) &&
      value.Array? && f.title == prop.name && f.id == AbsoluteUri(env.absoluteServiceUri, link.url) &&
      f.selfLink == SelfLink(prop.name).(url := link.url) &&
      FeedBody(env, value.items, f) &&
      (|f.entries| > 0 && f.entries[0].Some? ==>
         EntryShape(env, prop.propertyType.name, value.items[0], f.entries[0].value))
  }

  /** The header writeTopLevelElements gives a feed, from the request. */
  predicate FeedHeader(env: Env, f: ODataFeed) {
    f.title == env.request.containerName && f.id == env.request.requestUrl &&
    f.selfLink == SelfLink(env.request.identifier)
  }

  /** The body of a feed written from `items`: one slot per item in order, null exactly for a null
      item, the request's row count and the next-page link for that many items. */
  predicate FeedBody(env: Env, items: seq<Value>, f: ODataFeed) {
    FeedSlots(items, f.entries) &&
    f.rowCount == RowCount(env.request) &&
    NextPageLink(env, items) == Ok(f.nextPageLink)
  }

  /** One slot per item, in order, null exactly for a null item. */
  predicate FeedSlots(items: seq<Value>, slots: seq<Option<ODataEntry>>) {
    |slots| == |items| &&
    forall i :: 0 <= i < |items| ==> (slots[i].None? <==> !IsSet(items[i]))
  }

  /** No link below `e` expands into a feed. */
  predicate ExpandsOnlyEntries(e: ODataEntry)
    decreases e, 2
  {
    LinksExpandOnlyEntries(e.links)
  }

  predicate LinksExpandOnlyEntries(links: seq<ODataLink>)
    decreases links, 1
  {
    forall i :: 0 <= i < |links| ==> LinkExpandsOnlyEntries(links[i])
  }

  predicate LinkExpandsOnlyEntries(link: ODataLink)
    decreases link, 0
  {
    match link.expandedResult
    case None => true
    case Some(EntryResult(n)) => ExpandsOnlyEntries(n)
    case Some(FeedResult(_)) => false
  }

  /** A null slot, or an entry expanding only entries. */
  predicate SlotExpandsOnlyEntries(slot: Option<ODataEntry>) {
    slot.None? || ExpandsOnlyEntries(slot.value)
  }

  predicate SlotsExpandOnlyEntries(slots: seq<Option<ODataEntry>>) {
    forall i :: 0 <= i < |slots| ==> SlotExpandsOnlyEntries(slots[i])
  }

  lemma SlotsSnoc(slots: seq<Option<ODataEntry>>, slot: Option<ODataEntry>)
    ensures SlotsExpandOnlyEntries(slots + [slot]) <==> SlotsExpandOnlyEntries(slots) && SlotExpandsOnlyEntries(slot)
  {
    assert forall k :: 0 <= k < |slots| ==> (slots + [slot])[k] == slots[k];
    assert (slots + [slot])[|slots|] == slot;
  }

  lemma LinksOnlyEntriesSnoc(links: seq<ODataLink>, link: ODataLink)
    ensures LinksExpandOnlyEntries(links + [link]) <==> LinksExpandOnlyEntries(links) && LinkExpandsOnlyEntries(link)
  {
    assert forall k :: 0 <= k < |links| ==> (links + [link])[k] == links[k];
    assert (links + [link])[|links|] == link;
  }

  lemma FeedSlotsSnoc(items: seq<Value>, slots: seq<Option<ODataEntry>>, v: Value, slot: Option<ODataEntry>)
    requires FeedSlots(items, slots)
    requires slot.None? <==> !IsSet(v)
    ensures FeedSlots(items + [v], slots + [slot])
  {
    assert forall k :: 0 <= k < |slots| ==> (slots + [slot])[k] == slots[k] && (items + [v])[k] == items[k];
  }

  /** An entry is its head and its links. */
  lemma EntryShapeIntro(env: Env, typeName: string, entryObject: Value, head: ODataEntry, links: seq<ODataLink>)
    requires typeName in env.service.resourceTypes
    requires EntryHeadShape(env, env.service.resourceTypes[typeName], entryObject, head)
    requires LinksShape(env, head.editLink, entryObject,
                        NavigationProperties(env.service.resourceTypes[typeName].allProperties), links)
    ensures EntryShape(env, typeName, entryObject, head.(links := links))
    ensures ExpandsOnlyEntries(head.(links := links)) <==> LinksExpandOnlyEntries(links)
  {
  }

  lemma LinksSnoc(env: Env, relativeUri: string, entryObject: Value, relProp: seq<ResourceProperty>,
                  links: seq<ODataLink>, prop: ResourceProperty, link: ODataLink)
    requires LinksShape(env, relativeUri, entryObject, relProp, links)
    requires LinkShape(env, relativeUri, entryObject, prop, link)
    ensures LinksShape(env, relativeUri, entryObject, relProp + [prop], links + [link])
    ensures LinksExpandOnlyEntries(links + [link]) <==> LinksExpandOnlyEntries(links) && LinkExpandsOnlyEntries(link)
  {
    assert forall k :: 0 <= k < |links| ==> (links + [link])[k] == links[k] && (relProp + [prop])[k] == relProp[k];
    assert (links + [link])[|links|] == link;
  }

  lemma TakeSnoc<T>(s: seq<T>, i: nat)
    requires i < |s|
    ensures s[..i + 1] == s[..i] + [s[i]]
  {
  }
}
