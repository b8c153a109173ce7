/** writeMediaData: the media link of a media-link entry and one link per named stream. */
module Media {
  import opened Wrappers
  import opened Errors
  import opened PhpValues
  import opened Metadata
  import opened ObjectModel

  /** The stream provider wrapper's calls (getStreamETag2, getReadStreamUri2, getStreamContentType2);
      the operation context they also receive is left out. */
  datatype StreamProvider = StreamProvider(
    getStreamETag: (Value, Option<ResourceStreamInfo>) -> string,
    getReadStreamUri: (Value, ResourceStreamInfo, string) -> string,
    getStreamContentType: (Value, ResourceStreamInfo) -> string)

  function NamedStreamLink(sp: StreamProvider, entryObject: Value, relativeUri: string,
                           title: string, info: ResourceStreamInfo): ODataMediaLink
  {
    var readUri := sp.getReadStreamUri(entryObject, info, relativeUri);
    ODataMediaLink(title, readUri, readUri, sp.getStreamContentType(entryObject, info),
                   sp.getStreamETag(entryObject, Some(info)))
  }

  function MediaData(provider: Option<StreamProvider>, entryObject: Value, typeName: string,
                     relativeUri: string, rt: ResourceType)
    : (r: Result<(Option<ODataMediaLink>, seq<ODataMediaLink>), Error>)
    ensures provider.None? <==> r.Err?
    ensures r.Err? ==> r.error == AssertionFailed(StreamProviderPresent)
    ensures r.Ok? ==> (r.value.0.Some? <==> rt.isMediaLinkEntry)
    ensures r.Ok? && r.value.0.Some? ==>
      var m := r.value.0.value;
      m.name == typeName && m.editLink == "/$value" && m.srcLink == relativeUri + "/$value" &&
      m.contentType == "*/*" && m.eTag == provider.value.getStreamETag(entryObject, None)
    ensures r.Ok? ==>
      var links := r.value.1;
      |links| == |rt.namedStreams| &&
      forall i :: 0 <= i < |links| ==>
        var (title, info) := rt.namedStreams[i];
        links[i].name == title &&
        links[i].editLink == links[i].srcLink == provider.value.getReadStreamUri(entryObject, info, relativeUri) &&
        links[i].contentType == provider.value.getStreamContentType(entryObject, info) &&
        links[i].eTag == provider.value.getStreamETag(entryObject, Some(info))
  {
    match provider
    case None => Err(AssertionFailed(StreamProviderPresent))
    case Some(sp) =>
      var mediaLink :=
        if rt.isMediaLinkEntry
        then Some(ODataMediaLink(typeName, "/$value", relativeUri + "/$value", "*/*", sp.getStreamETag(entryObject, None)))
        else None;
      var ns := rt.namedStreams;
      Ok((mediaLink, seq(|ns|, i requires 0 <= i < |ns| => NamedStreamLink(sp, entryObject, relativeUri, ns[i].0, ns[i].1))))
  }

  /** writeMediaData, appending one media link per named stream. */
  method WriteMediaData(provider: Option<StreamProvider>, entryObject: Value, typeName: string,
                        relativeUri: string, rt: ResourceType)
    returns (r: Result<(Option<ODataMediaLink>, seq<ODataMediaLink>), Error>)
    ensures r == MediaData(provider, entryObject, typeName, relativeUri, rt)
  {
    if provider.None? {
      return Err(AssertionFailed(StreamProviderPresent));
    }
    var sp := provider.value;
    var mediaLink: Option<ODataMediaLink> := None;
    if rt.isMediaLinkEntry {
      var eTag := sp.getStreamETag(entryObject, None);
      mediaLink := Some(ODataMediaLink(typeName, "/$value", relativeUri + "/$value", "*/*", eTag));
    }
    var mediaLinks: seq<ODataMediaLink> := [];
    var namedStreams := rt.namedStreams;
    for i := 0 to |namedStreams|
      invariant |mediaLinks| == i
      invariant forall k :: 0 <= k < i ==>
        mediaLinks[k] == NamedStreamLink(sp, entryObject, relativeUri, namedStreams[k].0, namedStreams[k].1)
    {
      var (streamTitle, resourceStreamInfo) := namedStreams[i];
      var readUri := sp.getReadStreamUri(entryObject, resourceStreamInfo, relativeUri);
      var mediaContentType := sp.getStreamContentType(entryObject, resourceStreamInfo);
      var eTag := sp.getStreamETag(entryObject, Some(resourceStreamInfo));
      mediaLinks := mediaLinks + [ODataMediaLink(streamTitle, readUri, readUri, mediaContentType, eTag)];
    }
    assert mediaLinks == MediaData(provider, entryObject, typeName, relativeUri, rt).value.1;
    return Ok((mediaLink, mediaLinks));
  }
}
