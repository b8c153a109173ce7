/** What the serialiser is given: the service (metadata and foreign calls), the request description,
    the segment stack, and the absolute service URI. All of it is read-only here. */
module Collaborators {
  import opened Wrappers
  import opened PhpValues
  import opened Metadata
  import opened Projection
  import opened Primitives
  import opened Media

  datatype Service = Service(
    /** getProvidersWrapper()->resolveResourceType, by type name. */
    resourceTypes: map<string, ResourceType>,
    /** ModelSerialiser::bulkSerialise: an instance's name/value pairs, in order. */
    bulkSerialise: Value -> seq<(string, Value)>,
    /** IType::convertToOData for key values. */
    convertToOData: (IType, Value) -> string,
    conversions: Conversions,
    /** getStreamProviderWrapper(); None when the service has none. */
    streamProvider: Option<StreamProvider>,
    /** InternalOrderByInfo::buildSkipTokenValue on the last object (None for PHP's `false` that
        `end` gives on an empty array); None when no token is built. */
    buildSkipToken: (OrderByInfo, Option<Value>) -> Option<string>)

  datatype QueryType = Entities | EntitiesWithCount | Count

  datatype RequestDescription = RequestDescription(
    targetResourceTypeName: string,
    targetResourceSetWrapper: ResourceSetWrapper,
    containerName: string,
    identifier: string,
    requestUrl: string,
    queryType: QueryType,
    countValue: int,
    topOptionCount: Option<int>,
    rootProjectionNode: Option<ExpandedProjectionNode>)

  /** SegmentStack as seen from here: its segment names and resource set wrappers. */
  datatype SegmentStack = SegmentStack(segmentNames: seq<string>, segmentWrappers: seq<ResourceSetWrapper>)

  /** The serialiser's fields other than the light stack. */
  datatype Env = Env(
    service: Service,
    request: RequestDescription,
    stack: SegmentStack,
    absoluteServiceUri: string)
}
