/** The serialiser's entry and feed writers as functions of the environment, the light stack they
    start from and the value they write: what each returns, failures included, and the light stack
    it leaves behind. The methods of `Serialiser.IronicSerialiser` are proved equal to these. */
module Outcomes {
  import opened Wrappers
  import opened Errors
  import opened PhpValues
  import opened Metadata
  import opened ObjectModel
  import opened Uris
  import opened LightStack
  import opened KeyBuilder
  import opened Projection
  import opened Primitives
  import opened Media
  import opened Collaborators
  import opened Paging
  import opened Shapes

  /** What a write returns, and the light stack it leaves. */
  datatype Outcome<+T> = Outcome(result: Result<T, Error>, stack: seq<Frame>)

  /** The part of writeTopLevelElement that needs no light stack: the entry's resource set, key,
      URIs, title, type, media links and primitive properties, each failure aborting in that
      order; the links are added afterwards. */
  function EntryHead(env: Env, rt: ResourceType, entryObject: Value): (r: Result<ODataEntry, Error>)
    ensures rt.resourceSet.None? ==> r == Err(AssertionFailed(ResourceSetPresent))
    ensures rt.resourceSet.Some? ==>
      var key := EntryInstanceKey(env.service.convertToOData, entryObject, rt, rt.resourceSet.value);
      (key.Err? ==> r == Err(key.error)) &&
      (key.Ok? ==>
         var media := MediaData(env.service.streamProvider, entryObject, rt.fullName, key.value, rt);
         var props := PrimitiveProperties(env.service.conversions, env.service.bulkSerialise(entryObject),
                                          NonNavigationProperties(rt.allProperties));
         (r.Ok? <==> media.Ok? && props.Ok?) &&
         (media.Err? ==> r == Err(media.error)) &&
         (media.Ok? && props.Err? ==> r == Err(props.error)))
    ensures r.Ok? ==> EntryHeadShape(env, rt, entryObject, r.value) && r.value.links == []
  {
    match rt.resourceSet
    case None => Err(AssertionFailed(ResourceSetPresent))
    case Some(setName) =>
      match EntryInstanceKey(env.service.convertToOData, entryObject, rt, setName)
      case Err(e) => Err(e)
      case Ok(relativeUri) =>
        match MediaData(env.service.streamProvider, entryObject, rt.fullName, relativeUri, rt)
        case Err(e) => Err(e)
        case Ok(media) =>
          match PrimitiveProperties(env.service.conversions, env.service.bulkSerialise(entryObject),
                                    NonNavigationProperties(rt.allProperties))
          case Err(e) => Err(e)
          case Ok(props) =>
            Ok(ODataEntry(setName, AbsoluteUri(env.absoluteServiceUri, relativeUri), rt.name, rt.fullName, props,
                          rt.isMediaLinkEntry, relativeUri, media.0, media.1, []))
  }

  /** writeTopLevelElement: a null instance pops the stack and gives null; otherwise the stack is
      seeded and the type on its top is resolved. */
  function EntryOutcome(env: Env, s: seq<Frame>, entryObject: Value): Outcome<Option<ODataEntry>>
    decreases if IsSet(entryObject) then 1 else 0, entryObject, 3, 1
  {
    if !IsSet(entryObject) then Outcome(Ok(None), Pop(s))
    else
      var s1 := Seeded(s, env.request.targetResourceTypeName);
      var typeName := Top(s1).0;
      if typeName !in env.service.resourceTypes then Outcome(Err(UnresolvedResourceType(typeName)), s1)
      else TypedEntryOutcome(env, s1, env.service.resourceTypes[typeName], entryObject)
  }

  /** The rest of writeTopLevelElement, for a resolved type `rt` on the seeded stack `s1`: the head
      and then the links are written, the stack must be as deep as before the links, and its top
      frame is popped. */
  function TypedEntryOutcome(env: Env, s1: seq<Frame>, rt: ResourceType, entryObject: Value)
    : Outcome<Option<ODataEntry>>
    decreases 1, entryObject, 3, 0
  {
    match EntryHead(env, rt, entryObject)
    case Err(e) => Outcome(Err(e), s1)
    case Ok(head) =>
      var relProp := NavigationProperties(rt.allProperties);
      var links := LinksOutcome(env, s1, entryObject, head.editLink, relProp, |relProp|);
      match links.result
      case Err(e) => Outcome(Err(e), links.stack)
      case Ok(ls) =>
        if |links.stack| != |s1| then Outcome(Err(AssertionFailed(StackBalanced)), links.stack)
        else Outcome(Ok(Some(head.(links := ls))), Pop(links.stack))
  }

  /** The links of the first n navigation properties, in order, the first failure aborting. */
  function LinksOutcome(env: Env, s: seq<Frame>, entryObject: Value, relativeUri: string,
                        relProp: seq<ResourceProperty>, n: nat): Outcome<seq<ODataLink>>
    requires n <= |relProp|
    decreases 1, entryObject, 2, n
  {
    if n == 0 then Outcome(Ok([]), s)
    else
      var init := LinksOutcome(env, s, entryObject, relativeUri, relProp, n - 1);
      match init.result
      case Err(_) => init
      case Ok(links) =>
        var link := LinkOutcome(env, init.stack, entryObject, relativeUri, relProp[n - 1]);
        match link.result
        case Err(e) => Outcome(Err(e), link.stack)
        case Ok(l) => Outcome(Ok(links + [l]), link.stack)
  }

  /** One navigation property's link: a reference kind is asserted first. */
  function LinkOutcome(env: Env, s: seq<Frame>, entryObject: Value, relativeUri: string,
                       prop: ResourceProperty): Outcome<ODataLink>
    decreases 1, entryObject, 1, 1
  {
    if prop.kind != ResourceSetReference && prop.kind != ResourceReference then
      Outcome(Err(AssertionFailed(NavigationKindValid)), s)
    else ReferenceLinkOutcome(env, s, entryObject, relativeUri, prop)
  }

  /** The link of a reference property: the plain link, expanded when the projection tree says so. */
  function ReferenceLinkOutcome(env: Env, s: seq<Frame>, entryObject: Value, relativeUri: string,
                                prop: ResourceProperty): Outcome<ODataLink>
    decreases 1, entryObject, 1, 0
  {
    var nuLink := NavigationLink(relativeUri, prop);
    match ShouldExpandSegment(env.request.rootProjectionNode, env.stack.segmentNames, prop.name)
    case Err(e) => Outcome(Err(e), s)
    case Ok(expanded) =>
      if expanded then ExpansionOutcome(env, s, entryObject, prop, nuLink) else Outcome(Ok(nuLink), s)
  }

  /** expandNavigationProperty: the property's frame is pushed and its value written as an entry
      (to-one) or a feed (to-many) into the link; a null entry clears the link's marks, a feed's
      title, id and self link are pointed at the property and the link. */
  function ExpansionOutcome(env: Env, s: seq<Frame>, entryObject: Value, prop: ResourceProperty,
                            nuLink: ODataLink): Outcome<ODataLink>
    decreases 1, entryObject, 0, 0
  {
    var isCollection := prop.kind == ResourceSetReference;
    var link := nuLink.(isExpanded := Some(true), isCollection := Some(isCollection));
    var value := Property(entryObject, prop.name);
    var pushed := s + [(prop.propertyType.name, prop.name)];
    if !isCollection then
      var entry := EntryOutcome(env, pushed, value);
      (match entry.result
       case Err(e) => Outcome(Err(e), entry.stack)
       case Ok(None) =>
         Outcome(Ok(link.(isExpanded := None, isCollection := None, expandedResult := None)), entry.stack)
       case Ok(Some(n)) => Outcome(Ok(link.(expandedResult := Some(EntryResult(n)))), entry.stack))
    else
      var feed := FeedOutcome(env, pushed, value);
      match feed.result
      case Err(e) => Outcome(Err(e), feed.stack)
      case Ok(f) =>
        var f' := f.(selfLink := f.selfLink.(title := Some(prop.name), url := link.url),
                     title := prop.name, id := AbsoluteUri(env.absoluteServiceUri, link.url));
        Outcome(Ok(link.(expandedResult := Some(FeedResult(f')))), feed.stack)
  }

  /** writeTopLevelElements: an array is asserted, the stack is seeded, one slot per instance is
      written, then the next-page link; the header comes from the request. */
  function FeedOutcome(env: Env, s: seq<Frame>, entryObjects: Value): Outcome<ODataFeed>
    decreases if entryObjects.Array? then 1 else 0, entryObjects, 3, 0
  {
    if !entryObjects.Array? then Outcome(Err(AssertionFailed(EntriesAreArray)), s)
    else
      var items := entryObjects.items;
      var entries := EntriesOutcome(env, Seeded(s, env.request.targetResourceTypeName), items, |items|);
      match entries.result
      case Err(e) => Outcome(Err(e), entries.stack)
      case Ok(es) =>
        match NextPageLink(env, items)
        case Err(e) => Outcome(Err(e), entries.stack)
        case Ok(next) =>
          Outcome(Ok(ODataFeed(env.request.containerName, env.request.requestUrl, SelfLink(env.request.identifier),
                               RowCount(env.request), es, next)),
                  entries.stack)
  }

  /** The slots of the first n instances, in order, each written on the stack its predecessor
      left, the first failure aborting. */
  function EntriesOutcome(env: Env, s: seq<Frame>, items: seq<Value>, n: nat): Outcome<seq<Option<ODataEntry>>>
    requires n <= |items|
    decreases 1, Array(items), 2, n
  {
    if n == 0 then Outcome(Ok([]), s)
    else
      var init := EntriesOutcome(env, s, items, n - 1);
      match init.result
      case Err(_) => init
      case Ok(entries) =>
        var entry := EntryOutcome(env, init.stack, items[n - 1]);
        match entry.result
        case Err(e) => Outcome(Err(e), entry.stack)
        case Ok(slot) => Outcome(Ok(entries + [slot]), entry.stack)
  }

  /** One step of the fold over the navigation properties. */
  lemma LinksOutcomeStep(env: Env, s: seq<Frame>, entryObject: Value, relativeUri: string,
                         relProp: seq<ResourceProperty>, n: nat)
    requires 0 < n <= |relProp|
    ensures var init := LinksOutcome(env, s, entryObject, relativeUri, relProp, n - 1);
      var link := LinkOutcome(env, init.stack, entryObject, relativeUri, relProp[n - 1]);
      LinksOutcome(env, s, entryObject, relativeUri, relProp, n) ==
        if init.result.Err? then init
        else if link.result.Err? then Outcome(Err(link.result.error), link.stack)
        else Outcome(Ok(init.result.value + [link.result.value]), link.stack)
  {
  }

  /** One step of the fold over a feed's instances. */
  lemma EntriesOutcomeStep(env: Env, s: seq<Frame>, items: seq<Value>, n: nat)
    requires 0 < n <= |items|
    ensures var init := EntriesOutcome(env, s, items, n - 1);
      var entry := EntryOutcome(env, init.stack, items[n - 1]);
      EntriesOutcome(env, s, items, n) ==
        if init.result.Err? then init
        else if entry.result.Err? then Outcome(Err(entry.result.error), entry.stack)
        else Outcome(Ok(init.result.value + [entry.result.value]), entry.stack)
  {
  }

  /** A written feed's slots are the outcome of its instances on the seeded stack. */
  lemma FeedOutcomeEntries(env: Env, s: seq<Frame>, entryObjects: Value)
    requires entryObjects.Array?
    requires FeedOutcome(env, s, entryObjects).result.Ok?
    ensures var items := entryObjects.items;
      var entries := EntriesOutcome(env, Seeded(s, env.request.targetResourceTypeName), items, |items|);
      entries.result == Ok(FeedOutcome(env, s, entryObjects).result.value.entries) &&
      entries.stack == FeedOutcome(env, s, entryObjects).stack
  {
  }

  /** Once a link fails, the later ones are not written. */
  lemma {:induction false} LinksErrorPersists(env: Env, s: seq<Frame>, entryObject: Value, relativeUri: string,
                                              relProp: seq<ResourceProperty>, m: nat, n: nat)
    requires m <= n <= |relProp|
    requires LinksOutcome(env, s, entryObject, relativeUri, relProp, m).result.Err?
    ensures LinksOutcome(env, s, entryObject, relativeUri, relProp, n) ==
            LinksOutcome(env, s, entryObject, relativeUri, relProp, m)
    decreases n
  {
    if n > m {
      LinksErrorPersists(env, s, entryObject, relativeUri, relProp, m, n - 1);
    }
  }

  /** Once an entry fails, the later ones are not written. */
  lemma {:induction false} EntriesErrorPersists(env: Env, s: seq<Frame>, items: seq<Value>, m: nat, n: nat)
    requires m <= n <= |items|
    requires EntriesOutcome(env, s, items, m).result.Err?
    ensures EntriesOutcome(env, s, items, n) == EntriesOutcome(env, s, items, m)
    decreases n
  {
    if n > m {
      EntriesErrorPersists(env, s, items, m, n - 1);
    }
  }
}
