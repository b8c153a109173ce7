/** The serialiser's light stack of (entity type name, navigation property name) frames. */
module LightStack {

  type Frame = (string, string)

  /** array_pop: drop the top frame; popping an empty stack leaves it empty. */
  function Pop(s: seq<Frame>): (r: seq<Frame>)
    ensures s == [] ==> r == []
    ensures s != [] ==> r + [s[|s| - 1]] == s
  {
    if s == [] then [] else s[..|s| - 1]
  }

  /** loadStackIfEmpty: an empty stack is seeded with the request's target type, reached by itself. */
  function Seeded(s: seq<Frame>, typeName: string): (r: seq<Frame>)
    ensures r != []
    ensures s == [] ==> r == [(typeName, typeName)]
    ensures s != [] ==> r == s
  {
    if s == [] then [(typeName, typeName)] else s
  }

  function Top(s: seq<Frame>): Frame
    requires s != []
  {
    s[|s| - 1]
  }

  /** The stack after k pops. */
  function PopN(s: seq<Frame>, k: nat): (r: seq<Frame>)
    ensures |r| <= |s|
  {
    if k == 0 then s else Pop(PopN(s, k - 1))
  }

  lemma PopLength(s: seq<Frame>)
    ensures |Pop(s)| == if |s| == 0 then 0 else |s| - 1
  {
  }

  lemma {:induction false} PopNLength(s: seq<Frame>, k: nat)
    ensures |PopN(s, k)| == if k <= |s| then |s| - k else 0
  {
    if k > 0 {
      PopNLength(s, k - 1);
      PopLength(PopN(s, k - 1));
    }
  }

  /** After k pops the stack is the bottom part of what it was. */
  lemma {:induction false} PopNPrefix(s: seq<Frame>, k: nat)
    ensures PopN(s, k) == s[..|PopN(s, k)|]
  {
    if k > 0 {
      PopNPrefix(s, k - 1);
    }
  }

  /** Seeding and then popping is popping: a non-null entry written on an empty stack leaves it empty. */
  lemma PopSeeded(s: seq<Frame>, typeName: string)
    ensures Pop(Seeded(s, typeName)) == Pop(s)
  {
  }

  /** A to-one expansion pushes one frame and the expanded entry pops one: the stack is back
      where it was. */
  lemma PushThenPop(s: seq<Frame>, f: Frame)
    ensures Pop(s + [f]) == s
  {
    assert (s + [f])[..|s|] == s;
  }

  /** A to-many expansion pushes one frame and each of the k entries of the feed pops one; inside an
      entry (a non-empty stack) the depth comes back to where it was exactly when k is 1. */
  lemma ToManyExpansionDepth(s: seq<Frame>, f: Frame, typeName: string, k: nat)
    requires s != []
    ensures |PopN(Seeded(s + [f], typeName), k)| == |s| <==> k == 1
  {
    PopNLength(s + [f], k);
  }

  /** One more pop: a stack as deep as after i pops is, popped once, as deep as after i + 1. */
  lemma PopNStep(s: seq<Frame>, i: nat, t: seq<Frame>)
    ensures |t| == |PopN(s, i)| ==> |Pop(t)| == |PopN(s, i + 1)|
    ensures t == PopN(s, i) ==> Pop(t) == PopN(s, i + 1)
  {
    PopLength(t);
    PopLength(PopN(s, i));
  }

  /** At the top level the stack starts empty and is seeded with one frame: a feed of k entries
      leaves it empty, except an empty feed, which leaves the seeded frame behind. */
  lemma RootFeedDepth(typeName: string, k: nat)
    ensures |PopN(Seeded([], typeName), k)| == if k == 0 then 1 else 0
  {
    PopNLength(Seeded([], typeName), k);
  }

  /** After i pops (and seeding, should the stack have run empty) the top frame is the one i
      places below the old top, or the seeded one. */
  lemma TopAfterPops(s: seq<Frame>, i: nat, typeName: string)
    ensures Top(Seeded(PopN(s, i), typeName)) == if i < |s| then s[|s| - 1 - i] else (typeName, typeName)
  {
    PopNLength(s, i);
    PopNPrefix(s, i);
  }

  /** Two to-many links of one entry whose feeds, expanding only entries, have zero and two
      entries: each pushes a frame and the second feed's two entries pop two, so the stack is as
      deep as before and the entry's balance assertion passes, though the second entry of the
      second feed was written on a stack whose top is the first link's frame. */
  lemma CancellingToManyExpansions(s: seq<Frame>, f1: Frame, f2: Frame)
    ensures var first := PopN(s + [f1], 0);
      Top(Pop(first + [f2])) == f1 &&
      PopN(first + [f2], 2) == s
  {
    PushThenPop(s, f1);
    PushThenPop(s + [f1], f2);
    var x := s + [f1] + [f2];
    assert PopN(x, 1) == Pop(x);
    assert PopN(x, 2) == Pop(PopN(x, 1));
  }
}
