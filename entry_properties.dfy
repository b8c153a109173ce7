/** What every entry and feed the serialiser writes satisfies, derived from their shapes. */
module EntryProperties {
  import opened Wrappers
  import opened PhpValues
  import opened Metadata
  import opened ObjectModel
  import opened Uris
  import opened KeyBuilder
  import opened Collaborators
  import opened Shapes

  /** The edit link of a written entry reads back as its resource set's name and one
      `name=literal` pair per key property, in key order, provided the set name has no `(`, the key
      names no `=` or `,` and the literals no `,`. Its id is that edit link below the service URI. */
  lemma EditLinkRoundTrip(env: Env, typeName: string, entryObject: Value, e: ODataEntry)
    requires EntryShape(env, typeName, entryObject, e)
    requires '(' !in env.service.resourceTypes[typeName].resourceSet.value
    requires var rt := env.service.resourceTypes[typeName];
      forall i :: 0 <= i < |rt.keyProperties| ==>
        '=' !in rt.keyProperties[i].name && ',' !in rt.keyProperties[i].name &&
        (KeyPairOf(env.service.convertToOData, rt.name, entryObject, rt.keyProperties[i]).Ok? ==>
           ',' !in KeyPairOf(env.service.convertToOData, rt.name, entryObject, rt.keyProperties[i]).value.1)
    ensures var rt := env.service.resourceTypes[typeName];
      var pairs := KeyPairs(env.service.convertToOData, rt.name, entryObject, rt.keyProperties);
      pairs.Ok? && |pairs.value| == |rt.keyProperties| &&
      (forall i :: 0 <= i < |rt.keyProperties| ==>
         KeyPairOf(env.service.convertToOData, rt.name, entryObject, rt.keyProperties[i]).Ok? &&
         pairs.value[i] == KeyPairOf(env.service.convertToOData, rt.name, entryObject, rt.keyProperties[i]).value) &&
      ParseEntryKey(e.editLink) == Some((rt.resourceSet.value, pairs.value))
    ensures e.id == AbsoluteUri(env.absoluteServiceUri, e.editLink)
  {
    var rt := env.service.resourceTypes[typeName];
    var convert := env.service.convertToOData;
    KeyPairsOk(convert, rt.name, entryObject, rt.keyProperties);
    var ps := KeyPairs(convert, rt.name, entryObject, rt.keyProperties).value;
    assert e.editLink == KeyString(rt.resourceSet.value, ps);
    ParseKeyString(rt.resourceSet.value, ps);
  }

  /** A written entry has one link per navigation property of its type, in declaration order, each
      named after the property in the related-resource namespace, addressed below the entry's edit
      link and typed as an Atom feed exactly for a to-many property. */
  lemma EntryLinksFollowProperties(env: Env, typeName: string, entryObject: Value, e: ODataEntry)
    requires EntryShape(env, typeName, entryObject, e)
    ensures var relProp := NavigationProperties(env.service.resourceTypes[typeName].allProperties);
      |e.links| == |relProp| &&
      forall i :: 0 <= i < |relProp| ==>
        IsNavigational(relProp[i]) &&
        e.links[i].name == RelatedNamespace + relProp[i].name &&
        e.links[i].title == Some(relProp[i].name) &&
        e.links[i].url == e.editLink + "/" + relProp[i].name &&
        (e.links[i].linkType == Some(FeedMimeType) <==> relProp[i].kind == ResourceSetReference)
  {
    var relProp := NavigationProperties(env.service.resourceTypes[typeName].allProperties);
    forall i | 0 <= i < |relProp|
      ensures IsNavigational(relProp[i])
      ensures e.links[i].name == RelatedNamespace + relProp[i].name
      ensures e.links[i].title == Some(relProp[i].name)
      ensures e.links[i].url == e.editLink + "/" + relProp[i].name
      ensures e.links[i].linkType == Some(FeedMimeType) <==> relProp[i].kind == ResourceSetReference
    {
      assert relProp[i] in relProp;
      assert LinkShape(env, e.editLink, entryObject, relProp[i], e.links[i]);
      var plain := NavigationLink(e.editLink, relProp[i]);
      assert plain.url == e.editLink + "/" + relProp[i].name;
    }
  }

  /** Without a projection tree nothing is expanded: every link of a written entry is the plain
      navigation link, so the entry expands no feed. */
  lemma NoProjectionNoExpansion(env: Env, typeName: string, entryObject: Value, e: ODataEntry)
    requires env.request.rootProjectionNode.None?
    requires EntryShape(env, typeName, entryObject, e)
    ensures var relProp := NavigationProperties(env.service.resourceTypes[typeName].allProperties);
      |e.links| == |relProp| &&
      forall i :: 0 <= i < |relProp| ==> e.links[i] == NavigationLink(e.editLink, relProp[i])
    ensures ExpandsOnlyEntries(e)
  {
    var relProp := NavigationProperties(env.service.resourceTypes[typeName].allProperties);
    forall i | 0 <= i < |e.links|
      ensures e.links[i] == NavigationLink(e.editLink, relProp[i])
      ensures LinkExpandsOnlyEntries(e.links[i])
    {
      assert LinkShape(env, e.editLink, entryObject, relProp[i], e.links[i]);
    }
  }

  /** The feed inside an expanded to-many link is addressed by the link: its title is the property's
      name and its id and self link point at the entry's URL for the property. */
  lemma ExpandedFeedFollowsLink(env: Env, relativeUri: string, entryObject: Value, prop: ResourceProperty,
                                link: ODataLink)
    requires LinkShape(env, relativeUri, entryObject, prop, link)
    requires link.expandedResult.Some? && link.expandedResult.value.FeedResult?
    ensures var f := link.expandedResult.value.feed;
      prop.kind == ResourceSetReference && link.isCollection == Some(true) &&
      f.title == prop.name &&
      f.id == AbsoluteUri(env.absoluteServiceUri, relativeUri + "/" + prop.name) &&
      f.selfLink.name == SelfLinkName && f.selfLink.title == Some(prop.name) &&
      f.selfLink.url == relativeUri + "/" + prop.name
  {
    assert link.url == NavigationLink(relativeUri, prop).url;
  }
}
