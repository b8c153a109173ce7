# IronicSerialiser, modelled in Dafny

This project models the object-model serialiser of POData-Laravel, `IronicSerialiser`. The serialiser turns PHP entity instances into the OData object model:

- `writeTopLevelElement` writes one instance as an `ODataEntry`;
- `writeTopLevelElements` writes an array of instances as an `ODataFeed`;
- `writeUrlElement` and `writeUrlElements` write their URLs as `ODataURL` and `ODataURLCollection`.

An entry is built from:

- the entity type on top of the serialiser's *light stack*, a list of (entity type name, navigation property name) frames;
- its key string `Container(k1=v1,...)`, which gives the edit link and the id;
- its media and named-stream links;
- its primitive properties;
- one link per navigation property.

A link is expanded when the request's projection tree says so. The serialiser then pushes a frame and writes the related entry or feed into the link.

The model is organised as follows:

- PHP values, the metadata the serialiser reads, the request, the segment stack and the service are datatypes (`PhpValues`, `Metadata`, `Collaborators`).
- Foreign calls are total-function fields of `Service`: bulk serialisation, key literal conversion, the string conversions, the stream provider and the skip-token builder.
- The helpers (`getEntryInstanceKey`, `writeMediaData`, projection-tree navigation, paging, `primitiveToString`, `writePrimitiveProperties`) are modelled in their own modules. Each helper whose source works through a loop is a method proved equal to a specification function. Lemmas are proved about those functions.
- The serialiser itself is the class `Serialiser.IronicSerialiser`:
  - the environment is a `const`;
  - the light stack is a `seq` field that the methods update;
  - the methods that write entries, links and feeds are mutually recursive, as in the source.
- Each of those methods is proved equal to a function of `Outcomes`. The function takes the environment, the light stack the call starts from and the value being written. It gives the method's result, failures included, together with the stack the method leaves behind. A failure is an error result carrying the stack as it was when the error was raised.
- `OutcomeShapes` proves what those outcomes mean, using the predicates of `Shapes`, which relate a written entry, link or feed to the values it was written from. It covers:
  - the shape of every successful write;
  - the stack each write leaves;
  - the type each entry is written for;
  - the first failure of a loop;
  - the exact success condition when there is no projection tree.
- `EntryProperties` derives further properties of written entries:
  - the edit link round-trips through a key parser;
  - links follow the navigation properties;
  - nothing is expanded without a projection tree;
  - an expanded feed is addressed by its link.

PHP `assert` calls are modelled as active: a failing assertion is the result `Err(AssertionFailed(which))`. Other failures have their own error constructors:

- an unresolved entity type, which PHP would hit as a call on null;
- a missing projection node or missing order-by information, also calls on null;
- a property type that is not an `IType`, which PHP rejects with a `TypeError` at the typed parameter of `primitiveToString` (lines 623 and 654-657).

## The light stack

The light stack decides which entity type each entry is written for. Its behaviour is proved as follows:

- A successful `writeTopLevelElement` leaves the stack as deep as `Pop` of the old stack. When nothing below the entry expands a feed, the stack is exactly `Pop` of the old one (`OutcomeShapes.EntryOutcomeStack`).
- A feed of `k` entries pops `k` frames off the seeded stack (`OutcomeShapes.FeedOutcomeStack`).
- An entry whose links expand only entries always passes the balance assertion of line 189 (`OutcomeShapes.OnlyEntriesBalance`).
- Inside an entry, a single to-many expansion restores the depth exactly when its feed has one entry (`OutcomeShapes.ToManyExpansionBalance`).
  - Otherwise the depth is off. The assertion of line 189 compares depths only, so it fails unless other to-many links of the same entry cancel the difference. When it fails, the write returns `Err(AssertionFailed(StackBalanced))` (`Outcomes.TypedEntryOutcome`).
  - Example: take two to-many links whose feeds have zero and two entries, none of which expands a feed. The pushes and pops cancel out, so the depths compare equal and the assertion passes. The second entry of the second feed is then written on a stack whose top is the first link's frame. `LightStack.CancellingToManyExpansions` proves this stack arithmetic on the frames. It is not restated as a lemma about `TypedEntryOutcome`.
- Entry `i` of a feed is written for the type on top of the stack left by the entries before it (`OutcomeShapes.FeedEntryTypes`).
  - In a top-level feed, that is always the request's target type (`OutcomeShapes.RootFeedEntryTypes`).
  - Take a feed expanded inside an entry, none of whose entries expands a feed itself. Its first entry is written for the property's type. Entry `i` is written for the type of the frame `i` places below the property's frame, and for the target type once the stack has run empty (`OutcomeShapes.NestedFeedEntryTypes`).
- A top-level feed leaves an empty stack, or one seeded frame if it was empty (`OutcomeShapes.RootFeedLeavesStack`).
- Paging is not limited to the top level. An expanded feed goes through the same `writeTopLevelElements` (line 682). It therefore gets the next-page link that `needNextPageLink` and `getNextLinkUri` give for the request's segment stack (lines 230-236). That link uses the page size of the current resource set, which is the innermost segment's, or the target set's when there is no segment. Its URL uses the name of the request's target set, not that of the expanded property, and `FeedBody` (in `Shapes`) states it for every feed.

## Model

| member | source | states |
|---|---|---|
| PhpValues.Property | src/Serialisers/IronicSerialiser.php:677 | `$entryObject->$propName` is the object's field of that name when there is one, and null otherwise (also for non-objects) |
| Metadata.NavigationProperties | src/Serialisers/IronicSerialiser.php:125-131 | `$relProp` holds exactly the properties whose type is an entity type, and no more properties than the type has |
| Metadata.NonNavigationProperties | src/Serialisers/IronicSerialiser.php:125-131 | `$nonRelProp` is keyed by exactly the names of the non-navigational properties, and each key maps to such a property of that name |
| Metadata.SplitProperties | src/Serialisers/IronicSerialiser.php:125-131 | the foreach loop builds exactly `NavigationProperties` and `NonNavigationProperties` of the type's properties |
| Uris.RTrim | src/Serialisers/IronicSerialiser.php:143 | `rtrim($s, '/')` is a prefix of `s` that does not end in the character, and everything it drops is that character |
| Uris.AbsoluteUriIgnoresTrailingSlashes | src/Serialisers/IronicSerialiser.php:143 | trailing slashes on the service URI do not change an absolute URI: base and relative part are joined by exactly one slash |
| Uris.AbsoluteUriSplits | src/Serialisers/IronicSerialiser.php:143 | for a base without a trailing slash, the absolute URI is base, slash, relative part, and the relative part can be read back from its end |
| LightStack.Pop | src/Serialisers/IronicSerialiser.php:113 | `array_pop` on an empty stack leaves it empty; otherwise the old stack is the result plus the dropped top frame |
| LightStack.Seeded | src/Serialisers/IronicSerialiser.php:605-611 | after `loadStackIfEmpty` the stack is non-empty: an empty one holds the one frame (target type, target type), and a non-empty one is unchanged |
| LightStack.PopNLength | src/Serialisers/IronicSerialiser.php:225-227 | after k pops the stack is k frames shorter, or empty when k exceeds its depth |
| LightStack.PopNPrefix | src/Serialisers/IronicSerialiser.php:225-227 | after k pops the stack is a bottom part of the old stack |
| LightStack.PopSeeded | src/Serialisers/IronicSerialiser.php:117-190 | seeding and then popping equals popping: a non-null entry written on an empty stack leaves it empty |
| LightStack.PushThenPop | src/Serialisers/IronicSerialiser.php:678-682 | a frame pushed for a to-one expansion and popped by the expanded entry restores the stack exactly |
| LightStack.ToManyExpansionDepth | src/Serialisers/IronicSerialiser.php:678-684 | inside an entry, a to-many expansion (one push, one pop per feed entry) restores the depth if and only if the feed has exactly one entry |
| LightStack.RootFeedDepth | src/Serialisers/IronicSerialiser.php:205-227 | a root feed of k entries on an empty stack leaves one frame if k is 0, and none otherwise |
| KeyBuilder.GetEntryInstanceKey | src/Serialisers/IronicSerialiser.php:398-424 | the loop with its `$keyString` and `$comma` accumulators computes exactly `EntryInstanceKey`, including each error at the key property that raises it |
| KeyBuilder.KeyPairsPrefixError | src/Serialisers/IronicSerialiser.php:405-414 | once a prefix of the key properties fails, the whole key fails with the same error |
| KeyBuilder.KeyPairsOk | src/Serialisers/IronicSerialiser.php:405-418 | the key pairs succeed if and only if every key property succeeds, and then there is one pair per key property, in key order |
| KeyBuilder.KeyPairsFirstError | src/Serialisers/IronicSerialiser.php:405-414 | a failing key takes the error of the first key property that fails |
| KeyBuilder.EntryInstanceKeyOk | src/Serialisers/IronicSerialiser.php:398-424 | the key succeeds if and only if there is a key property and each is an IType with a set value; the key is then `Container(n1=l1,...,nN=lN)` |
| KeyBuilder.EntryInstanceKeyError | src/Serialisers/IronicSerialiser.php:402-414 | the first key property that is not an IType fails the assertion; the first with an unset value gives the internal-server error naming the type and the key |
| KeyBuilder.IndexOf | src/Serialisers/IronicSerialiser.php:403-423 | the index found is the first occurrence of the character, and None means it does not occur (used to read key strings back) |
| KeyBuilder.SplitJoin | src/Serialisers/IronicSerialiser.php:403-423 | splitting the comma-joined key pairs on commas gives back the pairs, when no pair holds a comma |
| KeyBuilder.ParseKeyString | src/Serialisers/IronicSerialiser.php:403-423 | round trip: a key string parses back to its container name and its pairs, given a container name without `(`, key names without `=` or `,` and literals without `,` |
| Projection.FindIn | src/Serialisers/IronicSerialiser.php:514 | `findNode` returns a child with that property name, or None exactly when no child has it |
| Projection.GetCurrentExpandedProjectionNode | src/Serialisers/IronicSerialiser.php:498-525 | the for loop from index 1 computes exactly `CurrentExpandedProjectionNode`, with the assertion failures for a missing or plain child |
| Projection.WalkIffPath | src/Serialisers/IronicSerialiser.php:513-522 | the walk reaches a node if and only if there is a chain of expanded children, one per segment name, leading to it |
| Projection.WalkEndsAtLastSegment | src/Serialisers/IronicSerialiser.php:513-522 | below the root, the current node is the one whose property name is the last segment name |
| Projection.ShouldExpandSegment | src/Serialisers/IronicSerialiser.php:535-546 | false without a projection tree; it fails exactly when the current node cannot be found; true if and only if the current node's child for the name is an expanded node |
| Projection.ShouldExpandChild | src/Serialisers/IronicSerialiser.php:535-546 | with distinct child names, a property is expanded if and only if the current node has an expanded child of that name; a plain child of that name means not expanded |
| Projection.GetProjectionNodes | src/Serialisers/IronicSerialiser.php:482-490 | null exactly when there is no current node or it selects all properties; otherwise the current node's child nodes |
| Paging.GetCurrentResourceSetWrapper | src/Serialisers/IronicSerialiser.php:578-584 | the innermost segment's wrapper when there is a segment, and the request's target wrapper otherwise |
| Paging.NeedNextPageLink | src/Serialisers/IronicSerialiser.php:557-571 | a next link only follows a full page; at the root a `$top` no larger than the page size suppresses it; otherwise a full page gets one |
| Paging.GetNextLinkUri | src/Serialisers/IronicSerialiser.php:595-603 | succeeds if and only if there is a current node with order-by information that builds a token; the result is then `?$skip=` and the token; otherwise the projection walk's own error, the null-call error for no current node or no order-by information, and the line-600 assertion for a null token |
| Paging.NextPageLink | src/Serialisers/IronicSerialiser.php:230-238 | no link unless `needNextPageLink` holds; otherwise the `next` link at the target set's absolute URI plus the skip segment, with its errors propagated |
| Paging.NextPageLinkUrl | src/Serialisers/IronicSerialiser.php:230-238 | a present next-page link implies a full page and a non-null skip token, and gives the link's exact URL |
| Paging.FullPageGetsNextLink | src/Serialisers/IronicSerialiser.php:557-571 | at the root without `$top`, a feed gets a next-page link if and only if its size is the page size |
| Media.MediaData | src/Serialisers/IronicSerialiser.php:433-470 | fails exactly without a stream provider; a media link exactly for a media-link entry, with its fixed edit link, source link and content type; one link per named stream, in order, from the provider's answers |
| Media.WriteMediaData | src/Serialisers/IronicSerialiser.php:433-470 | the loop over the named streams computes exactly `MediaData` |
| Primitives.PrimitiveToString | src/Serialisers/IronicSerialiser.php:623-638 | Boolean gives "true" if and only if the value is `true`; Binary, String and other types use their conversions; DateTime uses ATOM format only for a `\DateTime` value |
| Primitives.WritePrimitiveProperties | src/Serialisers/IronicSerialiser.php:645-662 | the loop over the bulk-serialised pairs computes exactly `PrimitiveProperties` |
| Primitives.PrimitivePropertiesPrefixError | src/Serialisers/IronicSerialiser.php:645-662 | once a prefix of the pairs fails to convert, the whole property content fails the same way |
| Primitives.PrimitivePropertiesAreKeptPairs | src/Serialisers/IronicSerialiser.php:645-662 | the content succeeds if and only if every kept pair converts; then property i is kept pair i with its name, the declared type's full name, and a null value exactly for an unset value |
| Shapes.NavigationLink | src/Serialisers/IronicSerialiser.php:151-166 | the link is named in the related namespace and titled by the property; its type is the Atom entry type exactly for a to-one property and the feed type otherwise; its URL is the entry's URL, a slash and the property name |
| Serialiser.WriteUrlElement | src/Serialisers/IronicSerialiser.php:250-265 | a null instance has a null URL; otherwise the URL is the absolute URI of its key in the current resource set, and it fails exactly when the key fails, with the key's error |
| Serialiser.WriteUrlElements | src/Serialisers/IronicSerialiser.php:275-301 | succeeds if and only if every URL and (for a non-empty list) the next-page link succeed; the first failing URL's error otherwise, and the next-page link's error when every URL succeeds; one URL per instance, in order; the next-page link and the `$inlinecount` count |
| Serialiser.WriteEntryHead | src/Serialisers/IronicSerialiser.php:133-147 | the method computes exactly `Outcomes.EntryHead`: no resource set fails the assertion; otherwise the key, media and primitive-property errors propagate in that order, and when all three succeed the head is written |
| Serialiser.IronicSerialiser.constructor | src/Serialisers/IronicSerialiser.php:92-101 | the serialiser keeps its environment and starts with an empty light stack |
| Serialiser.IronicSerialiser.LoadStackIfEmpty | src/Serialisers/IronicSerialiser.php:605-611 | the new stack is `Seeded` of the old one |
| Serialiser.IronicSerialiser.WriteTopLevelElement | src/Serialisers/IronicSerialiser.php:110-192 | result and new light stack are exactly `Outcomes.EntryOutcome` of the old stack: null pops and gives null; an unresolved type, a failing head or link propagate their error with the stack as it then was; an unbalanced stack fails the assertion; otherwise the entry, and the top frame is popped |
| Serialiser.IronicSerialiser.WriteLinks | src/Serialisers/IronicSerialiser.php:149-174 | result and new light stack are exactly `Outcomes.LinksOutcome` over all navigation properties: one link per property in order, each written on the stack the previous one left, the first failing link aborting with its error |
| Serialiser.IronicSerialiser.WriteLink | src/Serialisers/IronicSerialiser.php:151-173 | result and new light stack are exactly `Outcomes.LinkOutcome`: the kind assertion, the projection-walk error, the plain link when not expanded, and the expansion otherwise (cases in `OutcomeShapes.LinkOutcomeCases`) |
| Serialiser.IronicSerialiser.WriteTopLevelElements | src/Serialisers/IronicSerialiser.php:201-241 | result and new light stack are exactly `Outcomes.FeedOutcome`: a non-array fails the assertion with the stack untouched; otherwise the stack is seeded, the instances are written in order, and the next-page link is built; the first error aborts |
| Serialiser.IronicSerialiser.WriteEntries | src/Serialisers/IronicSerialiser.php:225-227 | result and new light stack are exactly `Outcomes.EntriesOutcome` over all instances: one slot per instance, each written on the stack the previous one left, the first failing instance aborting with its error |
| Serialiser.IronicSerialiser.ExpandNavigationProperty | src/Serialisers/IronicSerialiser.php:671-696 | result and new light stack are exactly `Outcomes.ExpansionOutcome`: the frame is pushed, the value written as entry (to-one) or feed (to-many), a null entry clears the marks, and a feed is retitled and re-addressed by the link; errors propagate with the stack as it then was |
| EntryProperties.EditLinkRoundTrip | src/Serialisers/IronicSerialiser.php:138-143 | a written entry's edit link parses back to its resource set's name and one pair per key property, in key order; its id is that edit link below the service URI |
| EntryProperties.EntryLinksFollowProperties | src/Serialisers/IronicSerialiser.php:149-174 | a written entry has one link per navigation property, in declaration order, each named and titled by the property, addressed below the edit link, and typed as a feed exactly for a to-many property |
| EntryProperties.NoProjectionNoExpansion | src/Serialisers/IronicSerialiser.php:535-539 | without a projection tree every link of a written entry is the plain navigation link, so nothing is expanded |
| EntryProperties.ExpandedFeedFollowsLink | src/Serialisers/IronicSerialiser.php:689-694 | an expanded feed belongs to a to-many property, is marked a collection, and takes its title, id and self link from the property and the link's URL |
| Outcomes.EntryHead | src/Serialisers/IronicSerialiser.php:133-147 | fails with the resource-set assertion without a resource set; otherwise with the key error, then the media error, then the primitive-property error; succeeds exactly when key, media and properties all do, with the head that `EntryHeadShape` relates to the instance and no links yet |
| Outcomes.FeedOutcomeEntries | src/Serialisers/IronicSerialiser.php:225-227 | a written feed's slots, and the stack it leaves, are those of its instances written in turn on the seeded stack |
| Outcomes.LinksErrorPersists | src/Serialisers/IronicSerialiser.php:149-174 | once a link fails, the later links are not written: the outcome, stack included, stays that of the failure |
| Outcomes.EntriesErrorPersists | src/Serialisers/IronicSerialiser.php:225-227 | once an instance fails, the later ones are not written: the outcome, stack included, stays that of the failure |
| OutcomeShapes.EntryOutcomeStack | src/Serialisers/IronicSerialiser.php:110-192 | a successful write gives null exactly for a null instance and leaves a stack as deep as `Pop` of the old one, and exactly `Pop` of it when no feed is expanded below the entry |
| OutcomeShapes.LinksOutcomeStack | src/Serialisers/IronicSerialiser.php:149-174 | links that expand no feeds leave the stack exactly as they found it |
| OutcomeShapes.LinkOutcomeStack | src/Serialisers/IronicSerialiser.php:151-173 | a link that expands no feed leaves the stack exactly as it found it |
| OutcomeShapes.ExpansionOutcomeStack | src/Serialisers/IronicSerialiser.php:671-696 | a to-one expansion restores the stack depth, and the stack itself when no feed is expanded below; a to-many one requires an array and leaves the stack as deep as the pushed stack popped once per feed entry |
| OutcomeShapes.FeedOutcomeStack | src/Serialisers/IronicSerialiser.php:201-241 | a written feed comes from an array and has one slot per instance, null exactly for null; it leaves a stack as deep as the seeded stack popped once per instance, and exactly that stack when no entry expands a feed |
| OutcomeShapes.EntriesOutcomeStack | src/Serialisers/IronicSerialiser.php:225-227 | after n successful instances there are n slots, null exactly for null instances; the stack is as deep as the starting one popped n times, and exactly that stack when no entry expands a feed |
| OutcomeShapes.EntryOutcomeShape | src/Serialisers/IronicSerialiser.php:110-192 | a written entry has the shape `EntryShape` for the type on top of the seeded stack |
| OutcomeShapes.TypedEntryOutcomeShape | src/Serialisers/IronicSerialiser.php:133-190 | an entry written for resolved type `rt` has the head `EntryHeadShape` demands and one link per navigation property of `rt`, as `LinksShape` demands |
| OutcomeShapes.LinksOutcomeShape | src/Serialisers/IronicSerialiser.php:149-174 | successful links are one link per navigation property, in order, each with the shape `LinkShape` |
| OutcomeShapes.LinkOutcomeShape | src/Serialisers/IronicSerialiser.php:151-173 | a successful link is for a reference property and keeps the plain link's name, title, type and URL; it is the plain link when the projection tree does not expand the property, and the expanded link `ExpandedLinkShape` describes when it does |
| OutcomeShapes.ExpansionOutcomeShape | src/Serialisers/IronicSerialiser.php:671-696 | an expansion keeps the link's name, title, type and URL and produces the expanded link `ExpandedLinkShape` describes, including the entry or the feed for the property's value |
| OutcomeShapes.FeedOutcomeShape | src/Serialisers/IronicSerialiser.php:201-241 | a written feed has the request's title, id and self link, the row count, the next-page link and one slot per instance; its first entry is written for the type on top of the seeded stack |
| OutcomeShapes.EntriesFirstEntryType | src/Serialisers/IronicSerialiser.php:117-121 | the first instance of a run is written for the type on top of the seeded starting stack |
| OutcomeShapes.EntriesOutcomePrefix | src/Serialisers/IronicSerialiser.php:225-227 | after i of n successful instances the result is the first i slots, and slot i is what writing instance i on the stack left by them gives |
| OutcomeShapes.EntriesOutcomeTake | src/Serialisers/IronicSerialiser.php:225-227 | after i of n successful instances the result is the first i slots of the final result |
| OutcomeShapes.FeedEntryTypes | src/Serialisers/IronicSerialiser.php:117-121 | entry i of a feed is written for the type on top of the (seeded) stack the entries before it left |
| OutcomeShapes.RootFeedEntryTypes | src/Serialisers/IronicSerialiser.php:205-227 | at the top level every entry of the feed is written for the request's target type |
| OutcomeShapes.NestedFeedEntryTypes | src/Serialisers/IronicSerialiser.php:117-121 | in a feed expanded below a frame on a non-empty stack, when no entry expands a feed, entry i is written for the frame i places down from the pushed one, or for the target type once the stack has run empty |
| OutcomeShapes.RootFeedLeavesStack | src/Serialisers/IronicSerialiser.php:205-227 | a successful top-level feed is an array and leaves an empty stack, or the one seeded frame when it has no entries |
| OutcomeShapes.ToManyExpansionBalance | src/Serialisers/IronicSerialiser.php:678-684 | inside an entry, a successful to-many expansion gives the stack back its depth if and only if its feed has exactly one entry |
| OutcomeShapes.OnlyEntriesBalance | src/Serialisers/IronicSerialiser.php:186-191 | when the links of an entry expand only entries, the balance assertion holds and the write returns the entry with those links |
| OutcomeShapes.LinkOutcomeCases | src/Serialisers/IronicSerialiser.php:152-171 | a non-reference kind fails the assertion; a failing projection walk propagates its error; no expansion gives the plain link; each with the stack untouched |
| OutcomeShapes.ExpansionOutcomeCases | src/Serialisers/IronicSerialiser.php:677-687 | a to-many property without an array fails the array assertion with the pushed frame left on the stack; a null to-one value gives the unmarked link and the stack as it was |
| OutcomeShapes.LinksFirstError | src/Serialisers/IronicSerialiser.php:149-174 | failed links fail with the error of the first link that fails, and leave the stack that link left |
| OutcomeShapes.EntriesFirstError | src/Serialisers/IronicSerialiser.php:225-227 | a failed run of instances fails with the error of the first instance that fails, and leaves the stack it left |
| OutcomeShapes.NoProjectionLinks | src/Serialisers/IronicSerialiser.php:149-174 | without a projection tree the links leave the stack alone and succeed if and only if every navigation property is a reference |
| OutcomeShapes.NoProjectionLink | src/Serialisers/IronicSerialiser.php:151-171 | without a projection tree a link leaves the stack alone and succeeds if and only if the property is a reference |
| OutcomeShapes.NoProjectionEntry | src/Serialisers/IronicSerialiser.php:110-192 | without a projection tree a write succeeds if and only if the instance is null or writable (known type, head succeeds, every navigation property a reference) for the type on top of the seeded stack, and then pops the stack |
| OutcomeShapes.NoProjectionRootEntries | src/Serialisers/IronicSerialiser.php:225-227 | at the top level without a projection tree the instances succeed if and only if each is null or writable for the target type, leaving an empty stack (or the seeded frame when there are none) |
| OutcomeShapes.NoProjectionRootFeed | src/Serialisers/IronicSerialiser.php:201-241 | at the top level without a projection tree a feed is written if and only if the value is an array, every instance is null or writable for the target type, and the next-page link can be built |
| LightStack.TopAfterPops | src/Serialisers/IronicSerialiser.php:117-121 | after i pops and seeding, the top frame is the one i places below the old top, or the seeded frame once the stack has run empty |
| LightStack.CancellingToManyExpansions | src/Serialisers/IronicSerialiser.php:186-190 | the stack arithmetic of two to-many expansions of zero and two entries: one push with no pops, then one push with two pops, restores the stack exactly, and the second pop of the second feed leaves the first link's frame on top; a frame-level fact, not stated about the entry writer's outcome |
| Metadata.NavigationPropertiesAppend | src/Serialisers/IronicSerialiser.php:125-131 | `$relProp` is built in order: the navigation properties of a concatenation are those of each part, concatenated |
| Metadata.NavigationPropertiesSingleton | src/Serialisers/IronicSerialiser.php:125-131 | a single property contributes itself exactly when it is navigational, and nothing otherwise |
| Primitives.KeptAppend | src/Serialisers/IronicSerialiser.php:649-652 | the kept pairs of a concatenation are those of each part, concatenated, so their order is the bulk-serialised order |
| Primitives.KeptSingleton | src/Serialisers/IronicSerialiser.php:649-652 | a single pair is kept exactly when its name is a non-navigational property |
| Paging.LastObject | src/Serialisers/IronicSerialiser.php:232 | `end()`, here and at line 287, gives false (None) exactly for an empty array, and otherwise the last element |
| Uris.AbsoluteUri | src/Serialisers/IronicSerialiser.php:143 | as at lines 261 and 693: the service URI with its trailing slashes removed, one slash and the relative URI: the parts are stated and the base part ends in no slash |
| Shapes.SelfLink | src/Serialisers/IronicSerialiser.php:212-215 | the feed's self link is named `self` and titled and addressed by the request identifier, with no type or expansion |
| Shapes.RowCount | src/Serialisers/IronicSerialiser.php:222-224 | as at lines 296-298: a row count is present exactly for `$inlinecount` requests and is then the request's count |
| Primitives.PropertyOf | src/Serialisers/IronicSerialiser.php:654-658 | fails with the non-IType error exactly for a set value of a non-primitive type; otherwise the property carries the name, the type's full name and a null value exactly for an unset value, the converted string otherwise |
| KeyBuilder.KeyPairOf | src/Serialisers/IronicSerialiser.php:406-417 | a key property gives its pair exactly when it is an IType with a set value; a non-IType fails the assertion and a null value gives the null-key error naming the type and property |

## Left out

- Stack balance for several to-many links of one entry: the balance and typing lemmas cover an entry whose links expand only entries, a single to-many expansion, and the stack arithmetic of two cancelling ones. No lemma characterises in general which combinations of feed sizes pass the line-189 assertion.
- Disabled assertions: PHP can run with `assert` disabled. The model does not cover that mode and always treats a failed assertion as an error.
- Shared link objects: `expandNavigationProperty` changes the `ODataLink` it is passed in place. The model works on values and returns the updated link instead, so aliasing of link objects is not captured.
- Exception messages: the text of assertion and exception messages is not modelled. Each error is just a named constructor.
- Complex types and bags: `writeTopLevelComplexObject`, `writeTopLevelBagObject` and `writeTopLevelPrimitive` are unimplemented in the source (lines 316-353), so there is no behaviour to model.
- Accessors: the getters and `setRequest` (lines 355-396) are plain field access. The model reads those fields directly from `Env`. The request is always present, so the `getRequest` assertion against a null request (line 362) is not modelled.
- Constructor: fetching the host URL, the operation context, `absoluteServiceUriWithSlash`, `complexTypeInstanceCollection` and the `ModelSerialiser` instance are all left out. The inputs are given as `Env`, and `absoluteServiceUriWithSlash` is never read by the modelled code.
- Library functions: `base64_encode`, `DateTime::format`, `utf8_encode`, `strval`, `convertToOData`, `bulkSerialise`, the stream provider calls and `buildSkipTokenValue` are foreign. They are uninterpreted functions in `Service`.
- Stream provider context: the operation context passed to the stream provider calls is left out.
- Type resolution: `resolveResourceType` is a map lookup, and `getCustomState` is reduced to the name of the ResourceSet or its absence.
- POData classes: `ODataConstants`, `Messages` and the POData object-model classes are not part of this model. Only the constants the serialiser writes are reproduced, in `ObjectModel`.
- Paging.GetNextLinkUri: the unused `$absoluteUri` parameter is dropped.
- Object graphs: PHP entity objects are references and can form cycles. Values here are finite trees (`PhpValues.Value`), so cyclic object graphs are not modelled. The source serialises such a graph without bound when the cycle runs through expanded properties: the segment stack is never pushed, so the same projection node answers at every depth (lines 168-170 and 677-682). The model's recursion ends only because its values are finite.
- SegmentStack: the model treats it as read-only input. The serialiser never pushes it, so the expansion decisions are the same at every depth of one serialisation.
- Integer overflow: PHP integers are not bounded in the model. Only the page-size comparison uses integers, and no overflow is possible there.
