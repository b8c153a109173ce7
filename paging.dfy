/** needNextPageLink, getCurrentResourceSetWrapper, getNextLinkUri and the next-page link that feeds
    and URL collections attach. */
module Paging {
  import opened Wrappers
  import opened Errors
  import opened PhpValues
  import opened Metadata
  import opened Projection
  import opened ObjectModel
  import opened Uris
  import opened Collaborators

  /** The resource set being serialised: the innermost segment's, or the request's target set. */
  function GetCurrentResourceSetWrapper(request: RequestDescription, stack: SegmentStack): (r: ResourceSetWrapper)
    ensures r == request.targetResourceSetWrapper || r in stack.segmentWrappers
    ensures stack.segmentWrappers != [] ==> r == stack.segmentWrappers[|stack.segmentWrappers| - 1]
  {
    var count := |stack.segmentWrappers|;
    if count == 0 then request.targetResourceSetWrapper else stack.segmentWrappers[count - 1]
  }

  /** Whether a page of `resultSetCount` results needs a next-page link. */
  function NeedNextPageLink(request: RequestDescription, stack: SegmentStack, resultSetCount: int): (r: bool)
    // a next link only ever follows a full page
    ensures r ==> resultSetCount == GetCurrentResourceSetWrapper(request, stack).pageSize
    // at the root, a $top no larger than the page size suppresses it whatever the count
    ensures (|stack.segmentNames| == 1 && request.topOptionCount.Some? &&
             request.topOptionCount.value <= GetCurrentResourceSetWrapper(request, stack).pageSize) ==> !r
    // otherwise, and at every other level whatever $top is, a full page gets one
    ensures !(|stack.segmentNames| == 1 && request.topOptionCount.Some? &&
              request.topOptionCount.value <= GetCurrentResourceSetWrapper(request, stack).pageSize) ==>
            (r <==> resultSetCount == GetCurrentResourceSetWrapper(request, stack).pageSize)
  {
    var pageSize := GetCurrentResourceSetWrapper(request, stack).pageSize;
    var recursionLevel := |stack.segmentNames|;
    if recursionLevel == 1 && request.topOptionCount.Some? && request.topOptionCount.value <= pageSize then false
    else resultSetCount == pageSize
  }

  /** `?$skip=` followed by the skip token the current node's order-by information builds from the
      last object. */
  function GetNextLinkUri(service: Service, request: RequestDescription, stack: SegmentStack,
                         lastObject: Option<Value>): (r: Result<string, Error>)
    ensures r.Ok? <==>
      var current := CurrentExpandedProjectionNode(request.rootProjectionNode, stack.segmentNames);
      current.Ok? && current.value.Some? && current.value.value.internalOrderByInfo.Some? &&
      service.buildSkipToken(current.value.value.internalOrderByInfo.value, lastObject).Some?
    ensures r.Ok? ==>
      var info := CurrentExpandedProjectionNode(request.rootProjectionNode, stack.segmentNames).value.value.internalOrderByInfo.value;
      r.value == "?$skip=" + service.buildSkipToken(info, lastObject).value
    ensures CurrentExpandedProjectionNode(request.rootProjectionNode, stack.segmentNames).Err? ==>
      r == Err(CurrentExpandedProjectionNode(request.rootProjectionNode, stack.segmentNames).error)
    ensures CurrentExpandedProjectionNode(request.rootProjectionNode, stack.segmentNames) == Ok(None) ==>
      r == Err(NoProjectionNode)
    ensures var current := CurrentExpandedProjectionNode(request.rootProjectionNode, stack.segmentNames);
      current.Ok? && current.value.Some? && current.value.value.internalOrderByInfo.None? ==>
        r == Err(NoOrderByInfo)
    ensures var current := CurrentExpandedProjectionNode(request.rootProjectionNode, stack.segmentNames);
      current.Ok? && current.value.Some? && current.value.value.internalOrderByInfo.Some? &&
      service.buildSkipToken(current.value.value.internalOrderByInfo.value, lastObject).None? ==>
        r == Err(AssertionFailed(SkipTokenPresent))
  {
    match CurrentExpandedProjectionNode(request.rootProjectionNode, stack.segmentNames)
    case Err(e) => Err(e)
    case Ok(None) => Err(NoProjectionNode)
    case Ok(Some(node)) =>
      match node.internalOrderByInfo
      case None => Err(NoOrderByInfo)
      case Some(info) =>
        match service.buildSkipToken(info, lastObject)
        case None => Err(AssertionFailed(SkipTokenPresent))
        case Some(token) => Ok("?$skip=" + token)
  }

  /** `end($entryObjects)`: the last object, or None for the `false` of an empty array. */
  function LastObject(entryObjects: seq<Value>): (r: Option<Value>)
    ensures r.None? <==> entryObjects == []
    ensures r.Some? ==> entryObjects == entryObjects[..|entryObjects| - 1] + [r.value]
  {
    if entryObjects == [] then None else Some(entryObjects[|entryObjects| - 1])
  }

  /** The next-page link of a feed or URL collection written from `entryObjects`: present only when
      needNextPageLink holds for their count, named "next", at
      `rtrim(serviceUri, '/') + "/" + targetSetName + "?$skip=" + token`. */
  function NextPageLink(env: Env, entryObjects: seq<Value>): (r: Result<Option<ODataLink>, Error>)
    ensures !NeedNextPageLink(env.request, env.stack, |entryObjects|) ==> r == Ok(None)
    ensures NeedNextPageLink(env.request, env.stack, |entryObjects|) ==>
      var uri := GetNextLinkUri(env.service, env.request, env.stack, LastObject(entryObjects));
      (r.Ok? <==> uri.Ok?) && (uri.Err? ==> r.error == uri.error) &&
      (r.Ok? ==> r.value == Some(PlainLink(NextLinkName,
         RTrim(env.absoluteServiceUri, '/') + "/" + env.request.targetResourceSetWrapper.name + uri.value)))
  {
    if NeedNextPageLink(env.request, env.stack, |entryObjects|) then
      var stackSegment := env.request.targetResourceSetWrapper.name;
      match GetNextLinkUri(env.service, env.request, env.stack, LastObject(entryObjects))
      case Err(e) => Err(e)
      case Ok(segment) =>
        Ok(Some(PlainLink(NextLinkName, RTrim(env.absoluteServiceUri, '/') + "/" + stackSegment + segment)))
    else Ok(None)
  }

  /** A next-page link carries a non-null skip token: its url is the target set's absolute URI
      followed by `?$skip=` and the token. */
  lemma NextPageLinkUrl(env: Env, entryObjects: seq<Value>)
    requires NextPageLink(env, entryObjects).Ok? && NextPageLink(env, entryObjects).value.Some?
    ensures NeedNextPageLink(env.request, env.stack, |entryObjects|)
    ensures
      var node := CurrentExpandedProjectionNode(env.request.rootProjectionNode, env.stack.segmentNames).value.value;
      var token := env.service.buildSkipToken(node.internalOrderByInfo.value, LastObject(entryObjects));
      token.Some? &&
      NextPageLink(env, entryObjects).value.value ==
        PlainLink(NextLinkName, RTrim(env.absoluteServiceUri, '/') + "/" +
                  env.request.targetResourceSetWrapper.name + "?$skip=" + token.value)
  {
  }

  /** A root feed whose count is the page size and which has no $top gets a next-page link (given an
      order to build the token from); a shorter or longer page never gets one. */
  lemma FullPageGetsNextLink(env: Env, entryObjects: seq<Value>)
    requires |env.stack.segmentNames| == 1 && env.request.topOptionCount.None?
    requires GetNextLinkUri(env.service, env.request, env.stack, LastObject(entryObjects)).Ok?
    ensures NextPageLink(env, entryObjects).Ok?
    ensures NextPageLink(env, entryObjects).value.Some? <==>
      |entryObjects| == GetCurrentResourceSetWrapper(env.request, env.stack).pageSize
  {
  }
}
