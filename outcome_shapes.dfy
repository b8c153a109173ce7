/** What the outcomes of the entry and feed writers mean: a successful write has the shape the
    `Shapes` predicates describe, the light stack it leaves is determined by what was expanded, the
    type every entry is written for is the one on top of the stack before it, and without a
    projection tree it is known exactly which writes succeed. */
module OutcomeShapes {
  import opened Wrappers
  import opened Errors
  import opened PhpValues
  import opened Metadata
  import opened ObjectModel
  import opened LightStack
  import opened Projection
  import opened Collaborators
  import opened Paging
  import opened Shapes
  import opened Outcomes

  // The light stack a successful write leaves.

  /** A written instance is null exactly when the instance is; the entry's own frame is gone
      afterwards, and the stack below it is untouched unless a feed was expanded inside it. */
  lemma {:induction false} EntryOutcomeStack(env: Env, s: seq<Frame>, entryObject: Value)
    decreases if IsSet(entryObject) then 1 else 0, entryObject, 3, 0
    ensures var o := EntryOutcome(env, s, entryObject);
      o.result.Ok? ==>
        (o.result.value.None? <==> !IsSet(entryObject)) &&
        |o.stack| == |Pop(s)| &&
        (SlotExpandsOnlyEntries(o.result.value) ==> o.stack == Pop(s))
  {
    if IsSet(entryObject) {
      var s1 := Seeded(s, env.request.targetResourceTypeName);
      var typeName := Top(s1).0;
      if typeName in env.service.resourceTypes {
        var rt := env.service.resourceTypes[typeName];
        var head := EntryHead(env, rt, entryObject);
        if head.Ok? {
          var relProp := NavigationProperties(rt.allProperties);
          var links := LinksOutcome(env, s1, entryObject, head.value.editLink, relProp, |relProp|);
          LinksOutcomeStack(env, s1, entryObject, head.value.editLink, relProp, |relProp|);
          if links.result.Ok? && |links.stack| == |s1| {
            assert ExpandsOnlyEntries(head.value.(links := links.result.value)) <==>
                   LinksExpandOnlyEntries(links.result.value);
            PopSeeded(s, env.request.targetResourceTypeName);
            PopLength(links.stack);
            PopLength(s1);
          }
        }
      }
    }
  }

  lemma {:induction false} LinksOutcomeStack(env: Env, s: seq<Frame>, entryObject: Value, relativeUri: string,
                                             relProp: seq<ResourceProperty>, n: nat)
    requires n <= |relProp|
    decreases 1, entryObject, 2, n
    ensures var o := LinksOutcome(env, s, entryObject, relativeUri, relProp, n);
      o.result.Ok? && LinksExpandOnlyEntries(o.result.value) ==> o.stack == s
  {
    if n > 0 {
      LinksOutcomeStack(env, s, entryObject, relativeUri, relProp, n - 1);
      LinksOutcomeStep(env, s, entryObject, relativeUri, relProp, n);
      var init := LinksOutcome(env, s, entryObject, relativeUri, relProp, n - 1);
      if init.result.Ok? {
        LinkOutcomeStack(env, init.stack, entryObject, relativeUri, relProp[n - 1]);
        var link := LinkOutcome(env, init.stack, entryObject, relativeUri, relProp[n - 1]);
        if link.result.Ok? {
          LinksOnlyEntriesSnoc(init.result.value, link.result.value);
        }
      }
    }
  }

  lemma {:induction false} LinkOutcomeStack(env: Env, s: seq<Frame>, entryObject: Value, relativeUri: string,
                                            prop: ResourceProperty)
    decreases 1, entryObject, 1, 0
    ensures var o := LinkOutcome(env, s, entryObject, relativeUri, prop);
      o.result.Ok? && LinkExpandsOnlyEntries(o.result.value) ==> o.stack == s
  {
    if (prop.kind == ResourceSetReference || prop.kind == ResourceReference) &&
       ShouldExpandSegment(env.request.rootProjectionNode, env.stack.segmentNames, prop.name) == Ok(true) {
      ExpansionOutcomeStack(env, s, entryObject, prop, NavigationLink(relativeUri, prop));
    }
  }

  /** A to-one expansion leaves the stack as deep as it was, a to-many one pops the pushed frame
      once per entry of the feed. */
  lemma {:induction false} ExpansionOutcomeStack(env: Env, s: seq<Frame>, entryObject: Value, prop: ResourceProperty,
                                                 nuLink: ODataLink)
    decreases 1, entryObject, 0, 0
    ensures var o := ExpansionOutcome(env, s, entryObject, prop, nuLink);
      var value := Property(entryObject, prop.name);
      o.result.Ok? ==>
        (LinkExpandsOnlyEntries(o.result.value) ==> o.stack == s) &&
        (prop.kind != ResourceSetReference ==> |o.stack| == |s|) &&
        (prop.kind == ResourceSetReference ==>
           value.Array? && |o.stack| == |PopN(s + [(prop.propertyType.name, prop.name)], |value.items|)|)
  {
    var f := (prop.propertyType.name, prop.name);
    var value := Property(entryObject, prop.name);
    PushThenPop(s, f);
    if prop.kind != ResourceSetReference {
      EntryOutcomeStack(env, s + [f], value);
    } else {
      FeedOutcomeStack(env, s + [f], value);
    }
  }

  /** Each entry of a written feed pops one frame of the seeded stack. */
  lemma {:induction false} FeedOutcomeStack(env: Env, s: seq<Frame>, entryObjects: Value)
    decreases if entryObjects.Array? then 1 else 0, entryObjects, 3, 0
    ensures var o := FeedOutcome(env, s, entryObjects);
      var s1 := Seeded(s, env.request.targetResourceTypeName);
      o.result.Ok? ==>
        entryObjects.Array? && FeedSlots(entryObjects.items, o.result.value.entries) &&
        |o.stack| == |PopN(s1, |entryObjects.items|)| &&
        (SlotsExpandOnlyEntries(o.result.value.entries) ==> o.stack == PopN(s1, |entryObjects.items|))
  {
    if entryObjects.Array? {
      var items := entryObjects.items;
      EntriesOutcomeStack(env, Seeded(s, env.request.targetResourceTypeName), items, |items|);
      assert items[..|items|] == items;
    }
  }

  lemma {:induction false} EntriesOutcomeStack(env: Env, s: seq<Frame>, items: seq<Value>, n: nat)
    requires n <= |items|
    decreases 1, Array(items), 2, n
    ensures var o := EntriesOutcome(env, s, items, n);
      o.result.Ok? ==>
        FeedSlots(items[..n], o.result.value) &&
        |o.stack| == |PopN(s, n)| &&
        (SlotsExpandOnlyEntries(o.result.value) ==> o.stack == PopN(s, n))
  {
    if n > 0 {
      EntriesOutcomeStack(env, s, items, n - 1);
      EntriesOutcomeStep(env, s, items, n);
      var init := EntriesOutcome(env, s, items, n - 1);
      if init.result.Ok? {
        EntryOutcomeStack(env, init.stack, items[n - 1]);
        var entry := EntryOutcome(env, init.stack, items[n - 1]);
        if entry.result.Ok? {
          SlotStackStep(s, items, n, init.result.value, init.stack, entry.result.value, entry.stack);
        }
      }
    }
  }

  /** One more slot: what the first n - 1 slots and the stack they left satisfy carries over to n. */
  lemma SlotStackStep(s: seq<Frame>, items: seq<Value>, n: nat, slots: seq<Option<ODataEntry>>, before: seq<Frame>,
                      slot: Option<ODataEntry>, after: seq<Frame>)
    requires 0 < n <= |items|
    requires FeedSlots(items[..n - 1], slots) && |before| == |PopN(s, n - 1)|
    requires SlotsExpandOnlyEntries(slots) ==> before == PopN(s, n - 1)
    requires (slot.None? <==> !IsSet(items[n - 1])) && |after| == |Pop(before)|
    requires SlotExpandsOnlyEntries(slot) ==> after == Pop(before)
    ensures FeedSlots(items[..n], slots + [slot]) && |after| == |PopN(s, n)|
    ensures SlotsExpandOnlyEntries(slots + [slot]) ==> after == PopN(s, n)
  {
    PopNStep(s, n - 1, before);
    SlotsSnoc(slots, slot);
    FeedSlotsSnoc(items[..n - 1], slots, items[n - 1], slot);
    TakeSnoc(items, n - 1);
  }

  // The shape of what a successful write returns.

  /** A written entry is the entry for the type on top of the seeded stack. */
  lemma {:induction false} EntryOutcomeShape(env: Env, s: seq<Frame>, entryObject: Value)
    decreases if IsSet(entryObject) then 1 else 0, entryObject, 3, 1
    ensures var o := EntryOutcome(env, s, entryObject);
      o.result.Ok? && o.result.value.Some? ==>
        EntryShape(env, Top(Seeded(s, env.request.targetResourceTypeName)).0, entryObject, o.result.value.value)
  {
    if IsSet(entryObject) {
      var s1 := Seeded(s, env.request.targetResourceTypeName);
      var typeName := Top(s1).0;
      if typeName in env.service.resourceTypes {
        TypedEntryOutcomeShape(env, s1, env.service.resourceTypes[typeName], entryObject);
      }
    }
  }

  /** A written entry of resolved type `rt` has the head and the links of an entry of that type. */
  lemma {:induction false} TypedEntryOutcomeShape(env: Env, s1: seq<Frame>, rt: ResourceType, entryObject: Value)
    decreases 1, entryObject, 3, 0
    ensures var o := TypedEntryOutcome(env, s1, rt, entryObject);
      o.result.Ok? && o.result.value.Some? ==>
        EntryHeadShape(env, rt, entryObject, o.result.value.value) &&
        LinksShape(env, o.result.value.value.editLink, entryObject, NavigationProperties(rt.allProperties),
                   o.result.value.value.links)
  {
    var head := EntryHead(env, rt, entryObject);
    if head.Ok? {
      var relProp := NavigationProperties(rt.allProperties);
      LinksOutcomeShape(env, s1, entryObject, head.value.editLink, relProp, |relProp|);
      assert relProp[..|relProp|] == relProp;
    }
  }

  lemma {:induction false} LinksOutcomeShape(env: Env, s: seq<Frame>, entryObject: Value, relativeUri: string,
                                             relProp: seq<ResourceProperty>, n: nat)
    requires n <= |relProp|
    decreases 1, entryObject, 2, n
    ensures var o := LinksOutcome(env, s, entryObject, relativeUri, relProp, n);
      o.result.Ok? ==> LinksShape(env, relativeUri, entryObject, relProp[..n], o.result.value)
  {
    if n > 0 {
      LinksOutcomeShape(env, s, entryObject, relativeUri, relProp, n - 1);
      LinksOutcomeStep(env, s, entryObject, relativeUri, relProp, n);
      var init := LinksOutcome(env, s, entryObject, relativeUri, relProp, n - 1);
      if init.result.Ok? {
        LinkOutcomeShape(env, init.stack, entryObject, relativeUri, relProp[n - 1]);
        var link := LinkOutcome(env, init.stack, entryObject, relativeUri, relProp[n - 1]);
        if link.result.Ok? {
          LinksShapeStep(env, relativeUri, entryObject, relProp, n, init.result.value, link.result.value);
        }
      }
    }
  }

  lemma LinksShapeStep(env: Env, relativeUri: string, entryObject: Value, relProp: seq<ResourceProperty>, n: nat,
                       links: seq<ODataLink>, link: ODataLink)
    requires 0 < n <= |relProp|
    requires LinksShape(env, relativeUri, entryObject, relProp[..n - 1], links)
    requires LinkShape(env, relativeUri, entryObject, relProp[n - 1], link)
    ensures LinksShape(env, relativeUri, entryObject, relProp[..n], links + [link])
  {
    LinksSnoc(env, relativeUri, entryObject, relProp[..n - 1], links, relProp[n - 1], link);
    TakeSnoc(relProp, n - 1);
  }

  lemma {:induction false} LinkOutcomeShape(env: Env, s: seq<Frame>, entryObject: Value, relativeUri: string,
                                            prop: ResourceProperty)
    decreases 1, entryObject, 1, 0
    ensures var o := LinkOutcome(env, s, entryObject, relativeUri, prop);
      o.result.Ok? ==> LinkShape(env, relativeUri, entryObject, prop, o.result.value)
  {
    if (prop.kind == ResourceSetReference || prop.kind == ResourceReference) &&
       ShouldExpandSegment(env.request.rootProjectionNode, env.stack.segmentNames, prop.name) == Ok(true) {
      ExpansionOutcomeShape(env, s, entryObject, prop, NavigationLink(relativeUri, prop));
    }
  }

  /** An expansion keeps the link's name, title, type and URL, and carries the entry or the feed
      written for the property's value. */
  lemma {:induction false} ExpansionOutcomeShape(env: Env, s: seq<Frame>, entryObject: Value, prop: ResourceProperty,
                                                 nuLink: ODataLink)
    decreases 1, entryObject, 0, 0
    ensures var o := ExpansionOutcome(env, s, entryObject, prop, nuLink);
      o.result.Ok? ==>
        o.result.value.name == nuLink.name && o.result.value.title == nuLink.title &&
        o.result.value.linkType == nuLink.linkType && o.result.value.url == nuLink.url &&
        ((prop.kind == ResourceReference || prop.kind == ResourceSetReference) ==>
           ExpandedLinkShape(env, entryObject, prop, o.result.value))
  {
    var f := (prop.propertyType.name, prop.name);
    var value := Property(entryObject, prop.name);
    if prop.kind != ResourceSetReference {
      EntryOutcomeStack(env, s + [f], value);
      EntryOutcomeShape(env, s + [f], value);
    } else {
      FeedOutcomeShape(env, s + [f], value);
    }
  }

  /** A written feed has the request's header and one slot per instance, and its first entry is
      written for the type on top of the seeded stack. */
  lemma {:induction false} FeedOutcomeShape(env: Env, s: seq<Frame>, entryObjects: Value)
    decreases if entryObjects.Array? then 1 else 0, entryObjects, 3, 0
    ensures var o := FeedOutcome(env, s, entryObjects);
      var s1 := Seeded(s, env.request.targetResourceTypeName);
      o.result.Ok? ==>
        entryObjects.Array? && FeedHeader(env, o.result.value) && FeedBody(env, entryObjects.items, o.result.value) &&
        (|entryObjects.items| > 0 && o.result.value.entries[0].Some? ==>
           EntryShape(env, Top(s1).0, entryObjects.items[0], o.result.value.entries[0].value))
  {
    FeedOutcomeStack(env, s, entryObjects);
    if entryObjects.Array? && FeedOutcome(env, s, entryObjects).result.Ok? {
      var items := entryObjects.items;
      FeedOutcomeEntries(env, s, entryObjects);
      if |items| > 0 {
        EntriesFirstEntryType(env, Seeded(s, env.request.targetResourceTypeName), items, |items|);
      }
    }
  }

  /** The first instance of a run is written for the type on top of the seeded stack it starts on. */
  lemma {:induction false} EntriesFirstEntryType(env: Env, s: seq<Frame>, items: seq<Value>, n: nat)
    requires 0 < n <= |items|
    requires EntriesOutcome(env, s, items, n).result.Ok?
    decreases 1, Array(items), 2, n
    ensures var es := EntriesOutcome(env, s, items, n).result.value;
      |es| == n &&
      (es[0].Some? ==> EntryShape(env, Top(Seeded(s, env.request.targetResourceTypeName)).0, items[0], es[0].value))
  {
    EntriesOutcomePrefix(env, s, items, n, 0);
    EntryOutcomeShape(env, s, items[0]);
  }

  /** The slots of a successful run, one step at a time: after i instances the result is the
      first i slots, and slot i is what writing instance i on the stack left so far gives. */
  lemma EntriesOutcomePrefix(env: Env, s: seq<Frame>, items: seq<Value>, n: nat, i: nat)
    requires i < n <= |items|
    requires EntriesOutcome(env, s, items, n).result.Ok?
    ensures var es := EntriesOutcome(env, s, items, n).result.value;
      |es| == n &&
      EntriesOutcome(env, s, items, i).result == Ok(es[..i]) &&
      EntryOutcome(env, EntriesOutcome(env, s, items, i).stack, items[i]).result == Ok(es[i])
  {
    EntriesOutcomeTake(env, s, items, n, i);
    EntriesOutcomeTake(env, s, items, n, i + 1);
    EntriesOutcomeStep(env, s, items, i + 1);
    var es := EntriesOutcome(env, s, items, n).result.value;
    assert es[..i + 1] == es[..i] + [es[i]];
  }

  /** After i of n successful instances the result is the first i slots. */
  lemma {:induction false} EntriesOutcomeTake(env: Env, s: seq<Frame>, items: seq<Value>, n: nat, i: nat)
    requires i <= n <= |items|
    requires EntriesOutcome(env, s, items, n).result.Ok?
    ensures var es := EntriesOutcome(env, s, items, n).result.value;
      |es| == n && EntriesOutcome(env, s, items, i).result == Ok(es[..i])
    decreases n
  {
    var es := EntriesOutcome(env, s, items, n).result.value;
    if n > 0 {
      EntriesOutcomeStep(env, s, items, n);
      var init := EntriesOutcome(env, s, items, n - 1);
      EntriesOutcomeTake(env, s, items, n - 1, if i < n then i else n - 1);
      var es' := init.result.value;
      assert es == es' + [EntryOutcome(env, init.stack, items[n - 1]).result.value];
      assert es[..i] == if i < n then es'[..i] else es;
    }
  }

  /** Entry i of a feed is written for the type on top of the (seeded) stack that the entries before
      it left: not necessarily the feed's type once an earlier entry has expanded a feed, or once the
      entries have popped the feed's own frame. */
  lemma FeedEntryTypes(env: Env, s: seq<Frame>, entryObjects: Value)
    requires entryObjects.Array?
    requires FeedOutcome(env, s, entryObjects).result.Ok?
    ensures var items := entryObjects.items;
      var f := FeedOutcome(env, s, entryObjects).result.value;
      var s1 := Seeded(s, env.request.targetResourceTypeName);
      |f.entries| == |items| &&
      forall i :: 0 <= i < |items| && f.entries[i].Some? ==>
        EntryShape(env, Top(Seeded(EntriesOutcome(env, s1, items, i).stack, env.request.targetResourceTypeName)).0,
                   items[i], f.entries[i].value)
  {
    var items := entryObjects.items;
    var s1 := Seeded(s, env.request.targetResourceTypeName);
    var f := FeedOutcome(env, s, entryObjects).result.value;
    FeedOutcomeStack(env, s, entryObjects);
    FeedOutcomeEntries(env, s, entryObjects);
    forall i | 0 <= i < |items| && f.entries[i].Some?
      ensures EntryShape(env, Top(Seeded(EntriesOutcome(env, s1, items, i).stack, env.request.targetResourceTypeName)).0,
                         items[i], f.entries[i].value)
    {
      EntriesOutcomePrefix(env, s1, items, |items|, i);
      EntryOutcomeShape(env, EntriesOutcome(env, s1, items, i).stack, items[i]);
    }
  }

  /** At the top level every entry of the feed is written for the request's target type: the stack
      starts as the one seeded frame and is empty, and seeded again, after every entry. */
  lemma RootFeedEntryTypes(env: Env, entryObjects: Value)
    requires entryObjects.Array?
    requires FeedOutcome(env, [], entryObjects).result.Ok?
    ensures var f := FeedOutcome(env, [], entryObjects).result.value;
      |f.entries| == |entryObjects.items| &&
      forall i :: 0 <= i < |entryObjects.items| && f.entries[i].Some? ==>
        EntryShape(env, env.request.targetResourceTypeName, entryObjects.items[i], f.entries[i].value)
  {
    var t := env.request.targetResourceTypeName;
    var items := entryObjects.items;
    var s1 := Seeded([], t);
    FeedEntryTypes(env, [], entryObjects);
    forall i | 0 <= i < |items|
      ensures Top(Seeded(EntriesOutcome(env, s1, items, i).stack, t)).0 == t
    {
      if i > 0 {
        EntriesOutcomePrefix(env, s1, items, |items|, i);
        EntriesOutcomeStack(env, s1, items, i);
        PopNLength(s1, i);
      }
    }
  }

  /** In a feed expanded below frame f on a non-empty stack, when no entry expands a feed itself,
      entry i is written for the type of the frame i places down from f (f itself for the first),
      and for the request's target type once the stack has run empty. */
  lemma NestedFeedEntryTypes(env: Env, s: seq<Frame>, f: Frame, entryObjects: Value)
    requires s != []
    requires entryObjects.Array?
    requires FeedOutcome(env, s + [f], entryObjects).result.Ok?
    requires SlotsExpandOnlyEntries(FeedOutcome(env, s + [f], entryObjects).result.value.entries)
    ensures var es := FeedOutcome(env, s + [f], entryObjects).result.value.entries;
      |es| == |entryObjects.items| &&
      forall i :: 0 <= i < |entryObjects.items| && es[i].Some? ==>
        EntryShape(env, if i <= |s| then (s + [f])[|s| - i].0 else env.request.targetResourceTypeName,
                   entryObjects.items[i], es[i].value)
  {
    var t := env.request.targetResourceTypeName;
    var items := entryObjects.items;
    var x := s + [f];
    var es := FeedOutcome(env, x, entryObjects).result.value.entries;
    FeedEntryTypes(env, x, entryObjects);
    forall i | 0 <= i < |items|
      ensures Top(Seeded(EntriesOutcome(env, x, items, i).stack, t)).0 ==
              if i <= |s| then x[|s| - i].0 else t
    {
      EntriesOutcomePrefix(env, x, items, |items|, i);
      assert SlotsExpandOnlyEntries(es[..i]) by {
        assert forall k :: 0 <= k < i ==> es[..i][k] == es[k];
      }
      EntriesOutcomeStack(env, x, items, i);
      TopAfterPops(x, i, t);
    }
  }

  /** After a top-level feed the stack is empty, except after an empty feed, which leaves the
      seeded frame behind. */
  lemma RootFeedLeavesStack(env: Env, entryObjects: Value)
    requires FeedOutcome(env, [], entryObjects).result.Ok?
    ensures entryObjects.Array?
    ensures var t := env.request.targetResourceTypeName;
      FeedOutcome(env, [], entryObjects).stack == if |entryObjects.items| == 0 then [(t, t)] else []
  {
    FeedOutcomeStack(env, [], entryObjects);
    RootFeedDepth(env.request.targetResourceTypeName, |entryObjects.items|);
  }

  /** Inside an entry, a to-many expansion gives the stack back its depth exactly when the feed
      has one entry: other sizes trip the entry's balance assertion unless another to-many link
      of the same entry cancels them out. */
  lemma ToManyExpansionBalance(env: Env, s: seq<Frame>, entryObject: Value, prop: ResourceProperty,
                               nuLink: ODataLink)
    requires s != [] && prop.kind == ResourceSetReference
    requires ExpansionOutcome(env, s, entryObject, prop, nuLink).result.Ok?
    ensures Property(entryObject, prop.name).Array?
    ensures |ExpansionOutcome(env, s, entryObject, prop, nuLink).stack| == |s| <==>
            |Property(entryObject, prop.name).items| == 1
  {
    ExpansionOutcomeStack(env, s, entryObject, prop, nuLink);
    ToManyExpansionDepth(s, (prop.propertyType.name, prop.name), env.request.targetResourceTypeName,
                         |Property(entryObject, prop.name).items|);
  }

  /** The balance assertion of writeTopLevelElement never fails for an entry whose links expand
      only entries. */
  lemma OnlyEntriesBalance(env: Env, s: seq<Frame>, entryObject: Value)
    requires IsSet(entryObject)
    ensures var s1 := Seeded(s, env.request.targetResourceTypeName);
      var typeName := Top(s1).0;
      typeName in env.service.resourceTypes ==>
        var rt := env.service.resourceTypes[typeName];
        var head := EntryHead(env, rt, entryObject);
        head.Ok? ==>
          var relProp := NavigationProperties(rt.allProperties);
          var links := LinksOutcome(env, s1, entryObject, head.value.editLink, relProp, |relProp|);
          links.result.Ok? && LinksExpandOnlyEntries(links.result.value) ==>
            EntryOutcome(env, s, entryObject).result == Ok(Some(head.value.(links := links.result.value)))
  {
    var s1 := Seeded(s, env.request.targetResourceTypeName);
    var typeName := Top(s1).0;
    if typeName in env.service.resourceTypes {
      var rt := env.service.resourceTypes[typeName];
      var head := EntryHead(env, rt, entryObject);
      if head.Ok? {
        var relProp := NavigationProperties(rt.allProperties);
        LinksOutcomeStack(env, s1, entryObject, head.value.editLink, relProp, |relProp|);
      }
    }
  }

  /** The three ways a link ends without expansion, and when it expands. */
  lemma LinkOutcomeCases(env: Env, s: seq<Frame>, entryObject: Value, relativeUri: string, prop: ResourceProperty)
    ensures var o := LinkOutcome(env, s, entryObject, relativeUri, prop);
      var expand := ShouldExpandSegment(env.request.rootProjectionNode, env.stack.segmentNames, prop.name);
      (prop.kind != ResourceSetReference && prop.kind != ResourceReference ==>
         o == Outcome(Err(AssertionFailed(NavigationKindValid)), s)) &&
      (prop.kind == ResourceSetReference || prop.kind == ResourceReference ==>
         (expand.Err? ==> o == Outcome(Err(expand.error), s)) &&
         (expand == Ok(false) ==> o == Outcome(Ok(NavigationLink(relativeUri, prop)), s)) &&
         (expand == Ok(true) ==> o == ExpansionOutcome(env, s, entryObject, prop, NavigationLink(relativeUri, prop))))
  {
  }

  /** A to-many property that does not hold an array fails the feed's assertion, leaving the
      pushed frame on the stack; a to-one property holding null leaves the link unexpanded and the
      stack as it was. */
  lemma ExpansionOutcomeCases(env: Env, s: seq<Frame>, entryObject: Value, prop: ResourceProperty, nuLink: ODataLink)
    ensures var o := ExpansionOutcome(env, s, entryObject, prop, nuLink);
      var value := Property(entryObject, prop.name);
      (prop.kind == ResourceSetReference && !value.Array? ==>
         o == Outcome(Err(AssertionFailed(EntriesAreArray)), s + [(prop.propertyType.name, prop.name)])) &&
      (prop.kind != ResourceSetReference && !IsSet(value) ==>
         o == Outcome(Ok(nuLink.(isExpanded := None, isCollection := None, expandedResult := None)), s))
  {
    PushThenPop(s, (prop.propertyType.name, prop.name));
  }

  /** A failed run of links fails with the error of the first link that fails, and leaves the
      stack that link left. */
  lemma {:induction false} LinksFirstError(env: Env, s: seq<Frame>, entryObject: Value, relativeUri: string,
                                           relProp: seq<ResourceProperty>, n: nat)
    requires n <= |relProp|
    requires LinksOutcome(env, s, entryObject, relativeUri, relProp, n).result.Err?
    ensures exists j :: 0 <= j < n && FailsAtLink(env, s, entryObject, relativeUri, relProp, n, j)
  {
    var init := LinksOutcome(env, s, entryObject, relativeUri, relProp, n - 1);
    if init.result.Err? {
      LinksFirstError(env, s, entryObject, relativeUri, relProp, n - 1);
      var j :| 0 <= j < n - 1 && FailsAtLink(env, s, entryObject, relativeUri, relProp, n - 1, j);
      assert FailsAtLink(env, s, entryObject, relativeUri, relProp, n, j);
    } else {
      assert FailsAtLink(env, s, entryObject, relativeUri, relProp, n, n - 1);
    }
  }

  /** The links of the first n properties fail because link j, written after j successful ones, fails. */
  predicate FailsAtLink(env: Env, s: seq<Frame>, entryObject: Value, relativeUri: string,
                        relProp: seq<ResourceProperty>, n: nat, j: nat)
    requires j < n <= |relProp|
  {
    var before := LinksOutcome(env, s, entryObject, relativeUri, relProp, j);
    var link := LinkOutcome(env, before.stack, entryObject, relativeUri, relProp[j]);
    var o := LinksOutcome(env, s, entryObject, relativeUri, relProp, n);
    before.result.Ok? && link.result.Err? && o.result == Err(link.result.error) && o.stack == link.stack
  }

  /** A failed run of entries fails with the error of the first entry that fails, and leaves the
      stack that entry left. */
  lemma {:induction false} EntriesFirstError(env: Env, s: seq<Frame>, items: seq<Value>, n: nat)
    requires n <= |items|
    requires EntriesOutcome(env, s, items, n).result.Err?
    ensures exists j :: 0 <= j < n && FailsAtEntry(env, s, items, n, j)
  {
    var init := EntriesOutcome(env, s, items, n - 1);
    if init.result.Err? {
      EntriesFirstError(env, s, items, n - 1);
      var j :| 0 <= j < n - 1 && FailsAtEntry(env, s, items, n - 1, j);
      assert FailsAtEntry(env, s, items, n, j);
    } else {
      assert FailsAtEntry(env, s, items, n, n - 1);
    }
  }

  /** The first n slots fail because entry j, written after j successful ones, fails. */
  predicate FailsAtEntry(env: Env, s: seq<Frame>, items: seq<Value>, n: nat, j: nat)
    requires j < n <= |items|
  {
    var before := EntriesOutcome(env, s, items, j);
    var entry := EntryOutcome(env, before.stack, items[j]);
    var o := EntriesOutcome(env, s, items, n);
    before.result.Ok? && entry.result.Err? && o.result == Err(entry.result.error) && o.stack == entry.stack
  }

  /** A navigation property the serialiser can link: a to-one or a to-many reference. */
  predicate IsReference(p: ResourceProperty) {
    p.kind == ResourceReference || p.kind == ResourceSetReference
  }

  /** An instance that, without a projection tree, can be written as an entry of type `typeName`:
      the type is known, the entry's head can be written and every navigation property of the
      type is a reference. */
  predicate Writable(env: Env, typeName: string, entryObject: Value) {
    typeName in env.service.resourceTypes &&
    var rt := env.service.resourceTypes[typeName];
    var relProp := NavigationProperties(rt.allProperties);
    EntryHead(env, rt, entryObject).Ok? &&
    forall i :: 0 <= i < |relProp| ==> IsReference(relProp[i])
  }

  /** Without a projection tree nothing is expanded: the links leave the stack alone, and they are
      written exactly when every property is a reference. */
  lemma {:induction false} NoProjectionLinks(env: Env, s: seq<Frame>, entryObject: Value, relativeUri: string,
                                             relProp: seq<ResourceProperty>, n: nat)
    requires env.request.rootProjectionNode.None?
    requires n <= |relProp|
    ensures var o := LinksOutcome(env, s, entryObject, relativeUri, relProp, n);
      o.stack == s &&
      (o.result.Ok? <==> forall i :: 0 <= i < n ==> IsReference(relProp[i]))
  {
    if n > 0 {
      NoProjectionLinks(env, s, entryObject, relativeUri, relProp, n - 1);
      LinksOutcomeStep(env, s, entryObject, relativeUri, relProp, n);
      NoProjectionLink(env, LinksOutcome(env, s, entryObject, relativeUri, relProp, n - 1).stack, entryObject,
                       relativeUri, relProp[n - 1]);
      AllReferencesStep(relProp, n);
    }
  }

  /** Without a projection tree a link is the plain one, written exactly for a reference property. */
  lemma NoProjectionLink(env: Env, s: seq<Frame>, entryObject: Value, relativeUri: string, prop: ResourceProperty)
    requires env.request.rootProjectionNode.None?
    ensures var o := LinkOutcome(env, s, entryObject, relativeUri, prop);
      o.stack == s && (o.result.Ok? <==> IsReference(prop))
  {
    assert ShouldExpandSegment(env.request.rootProjectionNode, env.stack.segmentNames, prop.name) == Ok(false);
  }

  lemma AllReferencesStep(relProp: seq<ResourceProperty>, n: nat)
    requires 0 < n <= |relProp|
    ensures (forall i :: 0 <= i < n ==> IsReference(relProp[i])) <==>
      (forall i :: 0 <= i < n - 1 ==> IsReference(relProp[i])) && IsReference(relProp[n - 1])
  {
  }

  /** Without a projection tree an instance is written exactly when it is null or writable for the
      type on top of the seeded stack, and a written one pops exactly its own frame. */
  lemma NoProjectionEntry(env: Env, s: seq<Frame>, entryObject: Value)
    requires env.request.rootProjectionNode.None?
    ensures var o := EntryOutcome(env, s, entryObject);
      (o.result.Ok? <==>
         !IsSet(entryObject) || Writable(env, Top(Seeded(s, env.request.targetResourceTypeName)).0, entryObject)) &&
      (o.result.Ok? ==> o.stack == Pop(s))
  {
    if IsSet(entryObject) {
      var s1 := Seeded(s, env.request.targetResourceTypeName);
      var typeName := Top(s1).0;
      if typeName in env.service.resourceTypes {
        var rt := env.service.resourceTypes[typeName];
        var head := EntryHead(env, rt, entryObject);
        if head.Ok? {
          var relProp := NavigationProperties(rt.allProperties);
          NoProjectionLinks(env, s1, entryObject, head.value.editLink, relProp, |relProp|);
          PopSeeded(s, env.request.targetResourceTypeName);
        }
      }
    }
  }

  /** The instances of a top-level feed without a projection tree: all are written for the target
      type, on the seeded frame and then on the empty stack. */
  lemma {:induction false} NoProjectionRootEntries(env: Env, items: seq<Value>, n: nat)
    requires env.request.rootProjectionNode.None?
    requires n <= |items|
    ensures var t := env.request.targetResourceTypeName;
      var o := EntriesOutcome(env, [(t, t)], items, n);
      (o.result.Ok? <==> forall i :: 0 <= i < n ==> !IsSet(items[i]) || Writable(env, t, items[i])) &&
      (o.result.Ok? ==> o.stack == if n == 0 then [(t, t)] else [])
  {
    var t := env.request.targetResourceTypeName;
    if n > 0 {
      NoProjectionRootEntries(env, items, n - 1);
      EntriesOutcomeStep(env, [(t, t)], items, n);
      var init := EntriesOutcome(env, [(t, t)], items, n - 1);
      if init.result.Ok? {
        assert init.stack == [(t, t)] || init.stack == [];
        NoProjectionEntry(env, init.stack, items[n - 1]);
        assert Top(Seeded(init.stack, t)).0 == t && Pop(init.stack) == [];
      }
    }
  }

  /** Without a projection tree a top-level feed is written exactly when the value is an array,
      every instance is null or writable as an entry of the request's target type, and the
      next-page link can be built. */
  lemma NoProjectionRootFeed(env: Env, entryObjects: Value)
    requires env.request.rootProjectionNode.None?
    ensures FeedOutcome(env, [], entryObjects).result.Ok? <==>
      entryObjects.Array? &&
      (forall i :: 0 <= i < |entryObjects.items| ==>
         !IsSet(entryObjects.items[i]) || Writable(env, env.request.targetResourceTypeName, entryObjects.items[i])) &&
      NextPageLink(env, entryObjects.items).Ok?
  {
    if entryObjects.Array? {
      NoProjectionRootEntries(env, entryObjects.items, |entryObjects.items|);
    }
  }
}
