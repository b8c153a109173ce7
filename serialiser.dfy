/** IronicSerialiser: writes entity instances as ODataEntry / ODataFeed objects, and their URLs as
    ODataURL / ODataURLCollection objects. The light stack of (type name, property name) frames is
    the only state the serialiser changes while it writes. */
module Serialiser {
  import opened Wrappers
  import opened Errors
  import opened PhpValues
  import opened Metadata
  import opened ObjectModel
  import opened Uris
  import opened LightStack
  import opened KeyBuilder
  import opened Projection
  import opened Primitives
  import opened Media
  import opened Collaborators
  import opened Paging
  import opened Shapes
  import opened Outcomes

  /** writeUrlElement: the absolute URI of an entity instance in the current resource set; a null
      instance has a null URL. */
  function WriteUrlElement(env: Env, entryObject: Value): (r: Result<ODataURL, Error>)
    ensures !IsSet(entryObject) ==> r == Ok(ODataURL(None))
    ensures IsSet(entryObject) ==>
      var wrapper := GetCurrentResourceSetWrapper(env.request, env.stack);
      var key := EntryInstanceKey(env.service.convertToOData, entryObject, wrapper.resourceType, wrapper.name);
      (r.Ok? <==> key.Ok?) && (key.Err? ==> r.error == key.error) &&
      (r.Ok? ==> r.value.url == Some(AbsoluteUri(env.absoluteServiceUri, key.value)))
  {
    if !IsSet(entryObject) then Ok(ODataURL(None))
    else
      var wrapper := GetCurrentResourceSetWrapper(env.request, env.stack);
      match EntryInstanceKey(env.service.convertToOData, entryObject, wrapper.resourceType, wrapper.name)
      case Err(e) => Err(e)
      case Ok(relativeUri) => Ok(ODataURL(Some(RTrim(env.absoluteServiceUri, '/') + "/" + relativeUri)))
  }

  /** writeUrlElements: one URL per entity instance, in order, the first failure aborting; a
      non-empty collection gets the next-page link for its size; the count for $inlinecount. */
  method WriteUrlElements(env: Env, entryObjects: seq<Value>) returns (r: Result<ODataURLCollection, Error>)
    ensures r.Ok? <==>
      (forall i :: 0 <= i < |entryObjects| ==> WriteUrlElement(env, entryObjects[i]).Ok?) &&
      (entryObjects != [] ==> NextPageLink(env, entryObjects).Ok?)
    ensures forall j :: 0 <= j < |entryObjects| && WriteUrlElement(env, entryObjects[j]).Err? &&
                        (forall i :: 0 <= i < j ==> WriteUrlElement(env, entryObjects[i]).Ok?) ==>
      r == Err(WriteUrlElement(env, entryObjects[j]).error)
    ensures (forall i :: 0 <= i < |entryObjects| ==> WriteUrlElement(env, entryObjects[i]).Ok?) &&
            entryObjects != [] && NextPageLink(env, entryObjects).Err? ==>
      r == Err(NextPageLink(env, entryObjects).error)
    ensures r.Ok? ==>
      |r.value.urls| == |entryObjects| &&
      (forall i :: 0 <= i < |entryObjects| ==> r.value.urls[i] == WriteUrlElement(env, entryObjects[i]).value)
    ensures r.Ok? ==> r.value.nextPageLink == (if entryObjects == [] then None else NextPageLink(env, entryObjects).value)
    ensures r.Ok? ==> r.value.count == RowCount(env.request)
  {
    var urls: seq<ODataURL> := [];
    var nextPageLink: Option<ODataLink> := None;
    if entryObjects != [] {
      var i := 0;
      while i < |entryObjects|
        invariant 0 <= i <= |entryObjects| && |urls| == i
        invariant forall k :: 0 <= k < i ==> WriteUrlElement(env, entryObjects[k]).Ok? &&
                                             urls[k] == WriteUrlElement(env, entryObjects[k]).value
      {
        var url :- WriteUrlElement(env, entryObjects[i]);
        urls := urls + [url];
        i := i + 1;
      }
      if i > 0 {
        nextPageLink :- NextPageLink(env, entryObjects);
      }
    }
    var count := if env.request.queryType == EntitiesWithCount then Some(env.request.countValue) else None;
    return Ok(ODataURLCollection(urls, nextPageLink, count));
  }

  /** The part of writeTopLevelElement that needs no light stack: the entry's resource set, key,
      URIs, title, type, media links and primitive properties, in that order; links are added later. */
  method WriteEntryHead(env: Env, entryObject: Value, resourceType: ResourceType,
                        nonRelProp: map<string, ResourceProperty>) returns (r: Result<ODataEntry, Error>)
    requires nonRelProp == NonNavigationProperties(resourceType.allProperties)
    ensures r == EntryHead(env, resourceType, entryObject)
  {
    if resourceType.resourceSet.None? {
      return Err(AssertionFailed(ResourceSetPresent));
    }
    var resourceSetName := resourceType.resourceSet.value;
    var title := resourceType.name;
    var typeName := resourceType.fullName;
    var relativeUri :- GetEntryInstanceKey(env.service.convertToOData, entryObject, resourceType, resourceSetName);
    var absoluteUri := RTrim(env.absoluteServiceUri, '/') + "/" + relativeUri;
    var media :- WriteMediaData(env.service.streamProvider, entryObject, typeName, relativeUri, resourceType);
    var propertyContent :- WritePrimitiveProperties(env.service.conversions, env.service.bulkSerialise,
                                                    entryObject, nonRelProp);
    return Ok(ODataEntry(resourceSetName, absoluteUri, title, typeName, propertyContent,
                         resourceType.isMediaLinkEntry, relativeUri, media.0, media.1, []));
  }

  class IronicSerialiser {
    /** The service, the request, the segment stack and the absolute service URI. */
    const env: Env
    /** Frames of (entity type name, navigation property name), innermost last. */
    var lightStack: seq<Frame>

    constructor (env: Env)
      ensures this.env == env && lightStack == []
    {
      this.env := env;
      lightStack := [];
    }

    /** loadStackIfEmpty: seed an empty stack with the request's target type. */
    method LoadStackIfEmpty()
      modifies this
      ensures lightStack == Seeded(old(lightStack), env.request.targetResourceTypeName)
    {
      if |lightStack| == 0 {
        var typeName := env.request.targetResourceTypeName;
        lightStack := lightStack + [(typeName, typeName)];
      }
    }

    /** writeTopLevelElement: a null instance pops the stack and gives null; otherwise the entry for
        the type on top of the (seeded) stack, after which that frame is popped. */
    method WriteTopLevelElement(entryObject: Value) returns (r: Result<Option<ODataEntry>, Error>)
      modifies this
      decreases if IsSet(entryObject) then 1 else 0, entryObject, 3
      ensures Outcome(r, lightStack) == EntryOutcome(env, old(lightStack), entryObject)
    {
      if !IsSet(entryObject) {
        lightStack := Pop(lightStack);
        return Ok(None);
      }
      LoadStackIfEmpty();
      var stackCount := |lightStack|;
      var topOfStack := lightStack[stackCount - 1];
      if topOfStack.0 !in env.service.resourceTypes {
        return Err(UnresolvedResourceType(topOfStack.0));
      }
      var resourceType := env.service.resourceTypes[topOfStack.0];
      var relProp, nonRelProp := SplitProperties(resourceType.allProperties);
      var odata :- WriteEntryHead(env, entryObject, resourceType, nonRelProp);
      var links :- WriteLinks(entryObject, odata.editLink, relProp);
      odata := odata.(links := links);
      var newCount := |lightStack|;
      if newCount != stackCount {
        return Err(AssertionFailed(StackBalanced));
      }
      lightStack := Pop(lightStack);
      return Ok(Some(odata));
    }

    /** The loop of writeTopLevelElement over the navigation properties: one link each, expanded
        when the projection tree says so, the first failure aborting. */
    method WriteLinks(entryObject: Value, relativeUri: string, relProp: seq<ResourceProperty>)
      returns (r: Result<seq<ODataLink>, Error>)
      modifies this
      decreases 1, entryObject, 2
      ensures Outcome(r, lightStack) == LinksOutcome(env, old(lightStack), entryObject, relativeUri, relProp, |relProp|)
    {
      var links: seq<ODataLink> := [];
      for i := 0 to |relProp|
        invariant LinksOutcome(env, old(lightStack), entryObject, relativeUri, relProp, i) == Outcome(Ok(links), lightStack)
      {
        var nuLink := WriteLink(entryObject, relativeUri, relProp[i]);
        LinksOutcomeStep(env, old(lightStack), entryObject, relativeUri, relProp, i + 1);
        if nuLink.Err? {
          LinksErrorPersists(env, old(lightStack), entryObject, relativeUri, relProp, i + 1, |relProp|);
          return Err(nuLink.error);
        }
        links := links + [nuLink.value];
      }
      return Ok(links);
    }

    /** writeTopLevelElements: the feed of an array of instances, one entry slot per instance, with
        the request's header, row count and next-page link. */
    method WriteTopLevelElements(entryObjects: Value) returns (r: Result<ODataFeed, Error>)
      modifies this
      decreases if entryObjects.Array? then 1 else 0, entryObjects, 3
      ensures Outcome(r, lightStack) == FeedOutcome(env, old(lightStack), entryObjects)
    {
      if !entryObjects.Array? {
        return Err(AssertionFailed(EntriesAreArray));
      }
      LoadStackIfEmpty();
      var title := env.request.containerName;
      var relativeUri := env.request.identifier;
      var absoluteUri := env.request.requestUrl;
      var selfLink := ODataLink(SelfLinkName, Some(relativeUri), None, relativeUri, None, None, None);
      var rowCount := if env.request.queryType == EntitiesWithCount then Some(env.request.countValue) else None;
      var items := entryObjects.items;
      var entries :- WriteEntries(items);
      var nextPageLink :- NextPageLink(env, items);
      return Ok(ODataFeed(title, absoluteUri, selfLink, rowCount, entries, nextPageLink));
    }

    /** One navigation property's link: checked to be a reference, given its name, title, type and
        URL, and expanded when the projection tree says so. */
    method WriteLink(entryObject: Value, relativeUri: string, prop: ResourceProperty)
      returns (r: Result<ODataLink, Error>)
      modifies this
      decreases 1, entryObject, 1
      ensures Outcome(r, lightStack) == LinkOutcome(env, old(lightStack), entryObject, relativeUri, prop)
    {
      var propKind := prop.kind;
      if propKind != ResourceSetReference && propKind != ResourceReference {
        return Err(AssertionFailed(NavigationKindValid));
      }
      var nuLink := NavigationLink(relativeUri, prop);
      var expanded :- ShouldExpandSegment(env.request.rootProjectionNode, env.stack.segmentNames, prop.name);
      if expanded {
        nuLink :- ExpandNavigationProperty(entryObject, prop, nuLink);
      }
      return Ok(nuLink);
    }

    /** The loop of writeTopLevelElements: one entry slot per instance, in order, each written on the
        stack the previous one left, the first failure aborting. */
    method WriteEntries(items: seq<Value>) returns (r: Result<seq<Option<ODataEntry>>, Error>)
      modifies this
      decreases 1, Array(items), 2
      ensures Outcome(r, lightStack) == EntriesOutcome(env, old(lightStack), items, |items|)
    {
      var entries: seq<Option<ODataEntry>> := [];
      for i := 0 to |items|
        invariant EntriesOutcome(env, old(lightStack), items, i) == Outcome(Ok(entries), lightStack)
      {
        var entry := WriteTopLevelElement(items[i]);
        EntriesOutcomeStep(env, old(lightStack), items, i + 1);
        if entry.Err? {
          EntriesErrorPersists(env, old(lightStack), items, i + 1, |items|);
          return Err(entry.error);
        }
        entries := entries + [entry.value];
      }
      return Ok(entries);
    }

    /** expandNavigationProperty: mark the link expanded, push the property's frame, write the
        property's value (an entry for to-one, a feed for to-many) into the link, then clear the marks
        for a null entry or point a feed's header at the link. */
    method ExpandNavigationProperty(entryObject: Value, prop: ResourceProperty, nuLink: ODataLink)
      returns (r: Result<ODataLink, Error>)
      modifies this
      decreases 1, entryObject, 0
      ensures Outcome(r, lightStack) == ExpansionOutcome(env, old(lightStack), entryObject, prop, nuLink)
    {
      var propName := prop.name;
      var nextName := prop.propertyType.name;
      var link := nuLink.(isExpanded := Some(true));
      var isCollection := prop.kind == ResourceSetReference;
      link := link.(isCollection := Some(isCollection));
      var value := Property(entryObject, propName);
      lightStack := lightStack + [(nextName, propName)];
      var expandedResult: Option<ExpandedResult>;
      if !isCollection {
        var entry :- WriteTopLevelElement(value);
        expandedResult := if entry.Some? then Some(EntryResult(entry.value)) else None;
      } else {
        var feed :- WriteTopLevelElements(value);
        expandedResult := Some(FeedResult(feed));
      }
      link := link.(expandedResult := expandedResult);
      if expandedResult.None? {
        link := link.(isCollection := None, isExpanded := None);
      } else if expandedResult.value.FeedResult? {
        var feed := expandedResult.value.feed;
        feed := feed.(selfLink := feed.selfLink.(title := Some(propName), url := link.url));
        feed := feed.(title := propName, id := RTrim(env.absoluteServiceUri, '/') + "/" + link.url);
        link := link.(expandedResult := Some(FeedResult(feed)));
      }
      return Ok(link);
    }
  }
}
