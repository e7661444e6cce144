/** Batching outbound media: sends to one chat travel together, at most ten at a time. */
module MediaBatcher {
  import opened OrderedMaps

  const MAX_GROUP_SIZE: nat := 10
  const MIN_GROUP_SIZE: nat := 2

  datatype MediaType = Document | Photo | Video | Audio

  datatype MediaSend = MediaSend(
    chatId: string, kind: MediaType, path: string, caption: Option<string>, parseMode: Option<string>, sendId: Option<string>)

  datatype MediaGroup = MediaGroup(chatId: string, items: seq<MediaSend>, caption: Option<string>, parseMode: Option<string>)

  datatype DroppedCaption = DroppedCaption(sendId: Option<string>, chatId: string, caption: string)

  datatype BatchResult = BatchResult(
    groups: seq<MediaGroup>, singleSends: seq<MediaSend>, droppedCaptions: seq<DroppedCaption>,
    totalSends: nat, batchedItemCount: nat, apiCallCount: nat, originalApiCallCount: nat)

  type ByChat = Ordered<string, seq<MediaSend>>

  /** The sends to one chat, in order. */
  function ToChat(sends: seq<MediaSend>, chat: string): seq<MediaSend> {
    if sends == [] then []
    else if sends[|sends| - 1].chatId == chat then ToChat(sends[..|sends| - 1], chat) + [sends[|sends| - 1]]
    else ToChat(sends[..|sends| - 1], chat)
  }

  function Grouped(sends: seq<MediaSend>): ByChat {
    if sends == [] then OMap([], map[])
    else
      var last := sends[|sends| - 1];
      var before := Grouped(sends[..|sends| - 1]);
      before.Set(last.chatId, (if last.chatId in before.vals then before.vals[last.chatId] else []) + [last])
  }

  /** Grouping keeps, for every chat that occurs, exactly its sends in their order. */
  lemma {:induction false} GroupedIsToChat(sends: seq<MediaSend>, chat: string)
    ensures chat in Grouped(sends).vals <==> ToChat(sends, chat) != []
    ensures chat in Grouped(sends).vals ==> Grouped(sends).vals[chat] == ToChat(sends, chat)
  {
    if sends != [] { GroupedIsToChat(sends[..|sends| - 1], chat); }
  }

  method GroupByChat(sends: seq<MediaSend>) returns (byChat: ByChat)
    ensures byChat == Grouped(sends)
  {
    byChat := OMap([], map[]);
    for i := 0 to |sends|
      invariant byChat == Grouped(sends[..i])
    {
      assert sends[..i + 1][..i] == sends[..i];
      var list := byChat.Get(sends[i].chatId);
      byChat := byChat.Set(sends[i].chatId, (if list.Some? then list.value else []) + [sends[i]]);
    }
    assert sends[..|sends|] == sends;
  }

  // ----- chunks -----

  function Chunks(items: seq<MediaSend>, max: nat): seq<seq<MediaSend>>
    requires max > 0
    decreases |items|
  {
    if items == [] then []
    else if |items| <= max then [items]
    else [items[..max]] + Chunks(items[max..], max)
  }

  method ChunkGroups(items: seq<MediaSend>, max: nat) returns (chunks: seq<seq<MediaSend>>)
    requires max > 0
    ensures chunks == Chunks(items, max)
  {
    chunks := [];
    var i := 0;
    assert items[0..] == items;
    while i < |items|
      invariant chunks + Chunks(if i < |items| then items[i..] else [], max) == Chunks(items, max)
      decreases |items| - i
    {
      var end := if i + max < |items| then i + max else |items|;
      ghost var rest := items[i..];
      assert i + max < |items| ==> rest[..max] == items[i..end] && rest[max..] == items[i + max..];
      assert i + max >= |items| ==> rest == items[i..end];
      chunks := chunks + [items[i..end]];
      i := i + max;
    }
  }

  /** The number of `d`-sized calls that `n` items need: `n / d`, rounded up. */
  function CeilDiv(n: nat, d: nat): nat
    requires d > 0
  {
    if n == 0 then 0 else if n <= d then 1 else 1 + CeilDiv(n - d, d)
  }

  lemma {:induction false} CeilDivValue(n: nat, d: nat)
    requires d > 0
    ensures (CeilDiv(n, d) - 1) * d < n <= CeilDiv(n, d) * d || n == CeilDiv(n, d) == 0
  {
    if n > d {
      CeilDivValue(n - d, d);
      var c := CeilDiv(n - d, d);
      assert (c + 1) * d == c * d + d && (c - 1) * d == c * d - d;
    }
  }

  // ----- groups -----

  function BuildGroup(items: seq<MediaSend>): MediaGroup
    requires items != []
  {
    MediaGroup(items[0].chatId, items, items[0].caption, items[0].parseMode)
  }

  /** The captions that some items carry, in order; an empty caption is none. */
  function CaptionsOf(items: seq<MediaSend>): seq<DroppedCaption> {
    if items == [] then []
    else
      var x := items[0];
      if x.caption.Some? && x.caption.value != ""
      then [DroppedCaption(x.sendId, x.chatId, x.caption.value)] + CaptionsOf(items[1..])
      else CaptionsOf(items[1..])
  }

  /** A group reports exactly the captions of the items after its first one. */
  method DropCaptions(items: seq<MediaSend>) returns (dropped: seq<DroppedCaption>)
    requires items != []
    ensures dropped == CaptionsOf(items[1..])
  {
    dropped := [];
    var i := 1;
    while i < |items|
      invariant 1 <= i <= |items|
      invariant dropped + CaptionsOf(items[i..]) == CaptionsOf(items[1..])
    {
      var x := items[i];
      assert items[i..][1..] == items[i + 1..];
      if x.caption.Some? && x.caption.value != "" {
        dropped := dropped + [DroppedCaption(x.sendId, x.chatId, x.caption.value)];
      }
      i := i + 1;
    }
  }

  function GroupsOf(chunks: seq<seq<MediaSend>>): seq<MediaGroup> {
    if chunks == [] then []
    else if |chunks[0]| >= MIN_GROUP_SIZE then [BuildGroup(chunks[0])] + GroupsOf(chunks[1..])
    else GroupsOf(chunks[1..])
  }

  function SinglesOf(chunks: seq<seq<MediaSend>>): seq<MediaSend> {
    if chunks == [] then []
    else if |chunks[0]| >= MIN_GROUP_SIZE then SinglesOf(chunks[1..])
    else chunks[0] + SinglesOf(chunks[1..])
  }

  function DroppedOf(chunks: seq<seq<MediaSend>>): seq<DroppedCaption> {
    if chunks == [] then []
    else if |chunks[0]| >= MIN_GROUP_SIZE then CaptionsOf(chunks[0][1..]) + DroppedOf(chunks[1..])
    else DroppedOf(chunks[1..])
  }

  lemma {:induction false} ChunksAreNotEmpty(items: seq<MediaSend>, max: nat)
    requires max > 0
    ensures forall i :: 0 <= i < |Chunks(items, max)| ==> 1 <= |Chunks(items, max)[i]| <= max
    decreases |items|
  {
    if |items| > max { ChunksAreNotEmpty(items[max..], max); }
  }

  /** Adds what one chat's chunks become to the three lists. */
  method PlaceChunks(chunks: seq<seq<MediaSend>>, groups0: seq<MediaGroup>, singles0: seq<MediaSend>, dropped0: seq<DroppedCaption>)
    returns (groups: seq<MediaGroup>, singles: seq<MediaSend>, dropped: seq<DroppedCaption>)
    requires forall i :: 0 <= i < |chunks| ==> chunks[i] != []
    ensures groups == groups0 + GroupsOf(chunks)
    ensures singles == singles0 + SinglesOf(chunks)
    ensures dropped == dropped0 + DroppedOf(chunks)
  {
    groups, singles, dropped := groups0, singles0, dropped0;
    var j := 0;
    while j < |chunks|
      invariant 0 <= j <= |chunks|
      invariant groups + GroupsOf(chunks[j..]) == groups0 + GroupsOf(chunks)
      invariant singles + SinglesOf(chunks[j..]) == singles0 + SinglesOf(chunks)
      invariant dropped + DroppedOf(chunks[j..]) == dropped0 + DroppedOf(chunks)
    {
      var chunk := chunks[j];
      assert chunks[j..][1..] == chunks[j + 1..];
      if |chunk| >= MIN_GROUP_SIZE {
        var lost := DropCaptions(chunk);
        groups := groups + [BuildGroup(chunk)];
        dropped := dropped + lost;
      } else {
        assert chunk == [chunk[0]];
        singles := singles + [chunk[0]];
      }
      j := j + 1;
    }
  }

  // ----- the batch: what the first `k` chats become, in the order in which they first occur -----

  function ChatChunks(m: ByChat, k: nat): seq<seq<MediaSend>>
    requires k < |m.keys|
  {
    Chunks(m.vals[m.keys[k]], MAX_GROUP_SIZE)
  }

  function AllGroups(m: ByChat, k: nat): seq<MediaGroup>
    requires k <= |m.keys|
  {
    if k == 0 then [] else AllGroups(m, k - 1) + GroupsOf(ChatChunks(m, k - 1))
  }

  function AllSingles(m: ByChat, k: nat): seq<MediaSend>
    requires k <= |m.keys|
  {
    if k == 0 then [] else AllSingles(m, k - 1) + SinglesOf(ChatChunks(m, k - 1))
  }

  function AllDropped(m: ByChat, k: nat): seq<DroppedCaption>
    requires k <= |m.keys|
  {
    if k == 0 then [] else AllDropped(m, k - 1) + DroppedOf(ChatChunks(m, k - 1))
  }

  /** The items that groups carry, one group after another. */
  function ItemsOf(groups: seq<MediaGroup>): seq<MediaSend> {
    if groups == [] then [] else groups[0].items + ItemsOf(groups[1..])
  }

  method CountItems(groups: seq<MediaGroup>) returns (n: nat)
    ensures n == |ItemsOf(groups)|
  {
    n := 0;
    var i := 0;
    while i < |groups|
      invariant 0 <= i <= |groups|
      invariant n + |ItemsOf(groups[i..])| == |ItemsOf(groups)|
    {
      assert groups[i..][1..] == groups[i + 1..];
      n := n + |groups[i].items|;
      i := i + 1;
    }
  }

  // ----- nothing is lost, each chat keeps its order -----

  lemma {:induction false} ToChatAppend(a: seq<MediaSend>, b: seq<MediaSend>, chat: string)
    ensures ToChat(a + b, chat) == ToChat(a, chat) + ToChat(b, chat)
  {
    if b == [] {
      assert a + b == a;
    } else {
      assert (a + b)[..|a + b| - 1] == a + b[..|b| - 1];
      ToChatAppend(a, b[..|b| - 1], chat);
    }
  }

  lemma {:induction false} ItemsAppend(a: seq<MediaGroup>, b: seq<MediaGroup>)
    ensures ItemsOf(a + b) == ItemsOf(a) + ItemsOf(b)
  {
    if a == [] {
      assert a + b == b;
    } else {
      assert (a + b)[1..] == a[1..] + b;
      ItemsAppend(a[1..], b);
    }
  }

  /** A chunk of two or more items goes into one group, ahead of what the other chunks become. */
  lemma FullChunkFirst(front: seq<MediaSend>, cs: seq<seq<MediaSend>>)
    requires |front| >= MIN_GROUP_SIZE
    ensures ItemsOf(GroupsOf([front] + cs)) == front + ItemsOf(GroupsOf(cs))
    ensures |GroupsOf([front] + cs)| == 1 + |GroupsOf(cs)| && SinglesOf([front] + cs) == SinglesOf(cs)
  {
    assert ([front] + cs)[1..] == cs;
    assert ([BuildGroup(front)] + GroupsOf(cs))[1..] == GroupsOf(cs);
  }

  lemma OnlyChunk(items: seq<MediaSend>)
    ensures ItemsOf(GroupsOf([items])) + SinglesOf([items]) == items
    ensures |items| >= 1 ==> |GroupsOf([items])| + |SinglesOf([items])| == 1
  {
    if |items| >= MIN_GROUP_SIZE {
      FullChunkFirst(items, []);
      assert [items] + [] == [items];
    } else {
      assert SinglesOf([items]) == items + SinglesOf([]);
    }
  }

  /** What one chat's chunks carry: its items in order, in the fewest calls that ten items a call allow. */
  lemma {:induction false} ChunksCarryTheItems(items: seq<MediaSend>)
    ensures ItemsOf(GroupsOf(Chunks(items, MAX_GROUP_SIZE))) + SinglesOf(Chunks(items, MAX_GROUP_SIZE)) == items
    ensures |GroupsOf(Chunks(items, MAX_GROUP_SIZE))| + |SinglesOf(Chunks(items, MAX_GROUP_SIZE))| == CeilDiv(|items|, MAX_GROUP_SIZE)
    decreases |items|
  {
    if |items| > MAX_GROUP_SIZE {
      var front, rest := items[..MAX_GROUP_SIZE], items[MAX_GROUP_SIZE..];
      ChunksCarryTheItems(rest);
      FullChunkFirst(front, Chunks(rest, MAX_GROUP_SIZE));
      assert items == front + rest;
    } else if items != [] {
      OnlyChunk(items);
    }
  }

  predicate AllTo(items: seq<MediaSend>, chat: string) {
    forall i :: 0 <= i < |items| ==> items[i].chatId == chat
  }

  lemma {:induction false} ToChatOfOneChat(items: seq<MediaSend>, c: string, chat: string)
    requires AllTo(items, c)
    ensures ToChat(items, chat) == if c == chat then items else []
  {
    if items != [] {
      ToChatOfOneChat(items[..|items| - 1], c, chat);
      assert items == items[..|items| - 1] + [items[|items| - 1]];
    }
  }

  lemma {:induction false} ToChatIsToChat(sends: seq<MediaSend>, chat: string)
    ensures AllTo(ToChat(sends, chat), chat)
  {
    if sends != [] { ToChatIsToChat(sends[..|sends| - 1], chat); }
  }

  /** One chat's items that travel in groups, and the item that may be left over. */
  function GroupedItems(items: seq<MediaSend>): seq<MediaSend> {
    ItemsOf(GroupsOf(Chunks(items, MAX_GROUP_SIZE)))
  }

  function LeftOver(items: seq<MediaSend>): seq<MediaSend> {
    SinglesOf(Chunks(items, MAX_GROUP_SIZE))
  }

  lemma PartsToChat(items: seq<MediaSend>, c: string, chat: string)
    requires AllTo(items, c)
    ensures GroupedItems(items) + LeftOver(items) == items
    ensures ToChat(GroupedItems(items), chat) == if c == chat then GroupedItems(items) else []
    ensures ToChat(LeftOver(items), chat) == if c == chat then LeftOver(items) else []
  {
    ChunksCarryTheItems(items);
    var g, l := GroupedItems(items), LeftOver(items);
    assert AllTo(g, c) by { assert forall i :: 0 <= i < |g| ==> g[i] == items[i]; }
    assert AllTo(l, c) by { assert forall i :: 0 <= i < |l| ==> l[i] == items[|g| + i]; }
    ToChatOfOneChat(g, c, chat);
    ToChatOfOneChat(l, c, chat);
  }

  ghost predicate SortedByChat(m: ByChat) {
    forall k :: 0 <= k < |m.keys| ==> AllTo(m.vals[m.keys[k]], m.keys[k])
  }

  /** The place of `chat` among the keys; at or past their number when it is none of them. */
  ghost predicate PlaceIs(m: ByChat, chat: string, at: nat) {
    forall k :: 0 <= k < |m.keys| ==> (m.keys[k] == chat <==> k == at)
  }

  lemma GroupsStep(before: seq<MediaGroup>, items: seq<MediaSend>, key: string, chat: string)
    requires AllTo(items, key)
    ensures ToChat(ItemsOf(before + GroupsOf(Chunks(items, MAX_GROUP_SIZE))), chat) ==
            ToChat(ItemsOf(before), chat) + (if key == chat then GroupedItems(items) else [])
  {
    ItemsAppend(before, GroupsOf(Chunks(items, MAX_GROUP_SIZE)));
    ToChatAppend(ItemsOf(before), GroupedItems(items), chat);
    PartsToChat(items, key, chat);
  }

  lemma {:induction false} GroupsToChat(m: ByChat, k: nat, chat: string, at: nat)
    requires k <= |m.keys| && SortedByChat(m) && PlaceIs(m, chat, at)
    ensures ToChat(ItemsOf(AllGroups(m, k)), chat) == if at < k then GroupedItems(m.vals[m.keys[at]]) else []
  {
    if k > 0 {
      GroupsToChat(m, k - 1, chat, at);
      GroupsStep(AllGroups(m, k - 1), m.vals[m.keys[k - 1]], m.keys[k - 1], chat);
    }
  }

  lemma SinglesStep(before: seq<MediaSend>, items: seq<MediaSend>, key: string, chat: string)
    requires AllTo(items, key)
    ensures ToChat(before + LeftOver(items), chat) == ToChat(before, chat) + (if key == chat then LeftOver(items) else [])
  {
    ToChatAppend(before, LeftOver(items), chat);
    PartsToChat(items, key, chat);
  }

  lemma {:induction false} SinglesToChat(m: ByChat, k: nat, chat: string, at: nat)
    requires k <= |m.keys| && SortedByChat(m) && PlaceIs(m, chat, at)
    ensures ToChat(AllSingles(m, k), chat) == if at < k then LeftOver(m.vals[m.keys[at]]) else []
  {
    if k > 0 {
      SinglesToChat(m, k - 1, chat, at);
      SinglesStep(AllSingles(m, k - 1), m.vals[m.keys[k - 1]], m.keys[k - 1], chat);
    }
  }

  lemma GroupedIsSorted(sends: seq<MediaSend>)
    ensures SortedByChat(Grouped(sends))
  {
    var m := Grouped(sends);
    forall k | 0 <= k < |m.keys| ensures AllTo(m.vals[m.keys[k]], m.keys[k]) {
      GroupedIsToChat(sends, m.keys[k]);
      ToChatIsToChat(sends, m.keys[k]);
    }
  }

  /** The whole batch as one list of sends: what the groups carry, then the single sends. */
  function Carried(sends: seq<MediaSend>): seq<MediaSend> {
    ItemsOf(AllGroups(Grouped(sends), |Grouped(sends).keys|)) + AllSingles(Grouped(sends), |Grouped(sends).keys|)
  }

  /** Every chat gets exactly its sends, in the order in which they were made. */
  lemma EachChatKeepsItsOrder(sends: seq<MediaSend>, chat: string)
    ensures ToChat(Carried(sends), chat) == ToChat(sends, chat)
  {
    var m := Grouped(sends);
    GroupedIsSorted(sends);
    GroupedIsToChat(sends, chat);
    ToChatAppend(ItemsOf(AllGroups(m, |m.keys|)), AllSingles(m, |m.keys|), chat);
    var at := if chat in m.keys then IndexOf(m.keys, chat) else |m.keys|;
    GroupsToChat(m, |m.keys|, chat, at);
    SinglesToChat(m, |m.keys|, chat, at);
    if chat in m.keys { PartsToChat(m.vals[chat], chat, chat); }
  }

  lemma {:induction false} CountToChat(sends: seq<MediaSend>, x: MediaSend)
    ensures multiset(sends)[x] == multiset(ToChat(sends, x.chatId))[x]
  {
    if sends != [] {
      CountToChat(sends[..|sends| - 1], x);
      assert sends == sends[..|sends| - 1] + [sends[|sends| - 1]];
    }
  }

  /** Batching loses, adds and changes nothing. */
  lemma NothingLost(sends: seq<MediaSend>)
    ensures multiset(Carried(sends)) == multiset(sends)
  {
    forall x: MediaSend ensures multiset(Carried(sends))[x] == multiset(sends)[x] {
      CountToChat(sends, x);
      CountToChat(Carried(sends), x);
      EachChatKeepsItsOrder(sends, x.chatId);
    }
  }

  // ----- the shape of the groups -----

  predicate WellFormed(g: MediaGroup) {
    && MIN_GROUP_SIZE <= |g.items| <= MAX_GROUP_SIZE
    && AllTo(g.items, g.chatId)
    && g.caption == g.items[0].caption
    && g.parseMode == g.items[0].parseMode
  }

  lemma {:induction false} ChunksToOneChat(items: seq<MediaSend>, c: string)
    requires AllTo(items, c)
    ensures forall i :: 0 <= i < |GroupsOf(Chunks(items, MAX_GROUP_SIZE))| ==> WellFormed(GroupsOf(Chunks(items, MAX_GROUP_SIZE))[i])
    decreases |items|
  {
    if |items| > MAX_GROUP_SIZE {
      ChunksToOneChat(items[MAX_GROUP_SIZE..], c);
      assert ([items[..MAX_GROUP_SIZE]] + Chunks(items[MAX_GROUP_SIZE..], MAX_GROUP_SIZE))[1..] == Chunks(items[MAX_GROUP_SIZE..], MAX_GROUP_SIZE);
    }
  }

  lemma {:induction false} GroupsAreWellFormed(m: ByChat, k: nat)
    requires k <= |m.keys| && SortedByChat(m)
    ensures forall i :: 0 <= i < |AllGroups(m, k)| ==> WellFormed(AllGroups(m, k)[i])
  {
    if k > 0 {
      GroupsAreWellFormed(m, k - 1);
      ChunksToOneChat(m.vals[m.keys[k - 1]], m.keys[k - 1]);
    }
  }

  // ----- the number of calls -----

  /** The calls that the first `k` chats need, ten sends a call. */
  function CallsFor(m: ByChat, k: nat): nat
    requires k <= |m.keys|
  {
    if k == 0 then 0 else CallsFor(m, k - 1) + CeilDiv(|m.vals[m.keys[k - 1]]|, MAX_GROUP_SIZE)
  }

  function SendsOf(m: ByChat, k: nat): nat
    requires k <= |m.keys|
  {
    if k == 0 then 0 else SendsOf(m, k - 1) + |m.vals[m.keys[k - 1]]|
  }

  lemma {:induction false} CountsAddUp(m: ByChat, k: nat)
    requires k <= |m.keys|
    ensures |AllGroups(m, k)| + |AllSingles(m, k)| == CallsFor(m, k)
    ensures |ItemsOf(AllGroups(m, k))| + |AllSingles(m, k)| == SendsOf(m, k)
  {
    if k > 0 {
      CountsAddUp(m, k - 1);
      ItemsAppend(AllGroups(m, k - 1), GroupsOf(ChatChunks(m, k - 1)));
      ChunksCarryTheItems(m.vals[m.keys[k - 1]]);
      assert |GroupedItems(m.vals[m.keys[k - 1]]) + LeftOver(m.vals[m.keys[k - 1]])| == |m.vals[m.keys[k - 1]]|;
    }
  }

  lemma {:induction false} FewerCallsThanSends(m: ByChat, k: nat)
    requires k <= |m.keys|
    ensures CallsFor(m, k) <= SendsOf(m, k)
    ensures CallsFor(m, k) < SendsOf(m, k) <==> exists i :: 0 <= i < k && |m.vals[m.keys[i]]| >= MIN_GROUP_SIZE
  {
    if k > 0 {
      FewerCallsThanSends(m, k - 1);
      FewerCalls(|m.vals[m.keys[k - 1]]|);
    }
  }

  lemma {:induction false} FewerCalls(n: nat)
    ensures CeilDiv(n, MAX_GROUP_SIZE) <= n
    ensures CeilDiv(n, MAX_GROUP_SIZE) < n <==> n >= MIN_GROUP_SIZE
  {
    if n > MAX_GROUP_SIZE { FewerCalls(n - MAX_GROUP_SIZE); }
  }

  /** The results about a whole batch, together. */
  lemma BatchFacts(sends: seq<MediaSend>)
    ensures var m := Grouped(sends); var n := |m.keys|;
            (forall chat :: ToChat(ItemsOf(AllGroups(m, n)) + AllSingles(m, n), chat) == ToChat(sends, chat))
    ensures multiset(Carried(sends)) == multiset(sends)
    ensures var m := Grouped(sends); var gs := AllGroups(m, |m.keys|);
            (forall i :: 0 <= i < |gs| ==> WellFormed(gs[i])) && |gs| + |AllSingles(m, |m.keys|)| == CallsFor(m, |m.keys|)
    ensures SendsOf(Grouped(sends), |Grouped(sends).keys|) == |sends|
  {
    var m := Grouped(sends);
    forall chat ensures ToChat(ItemsOf(AllGroups(m, |m.keys|)) + AllSingles(m, |m.keys|), chat) == ToChat(sends, chat) {
      EachChatKeepsItsOrder(sends, chat);
    }
    NothingLost(sends);
    GroupedIsSorted(sends);
    GroupsAreWellFormed(m, |m.keys|);
    CountsAddUp(m, |m.keys|);
    assert |multiset(Carried(sends))| == |multiset(sends)|;
  }

  /** Batches the sends: nothing is lost, each chat keeps its order, and the groups are ones that can be sent. */
  method BatchMediaSends(sends: seq<MediaSend>) returns (r: BatchResult)
    ensures forall chat :: ToChat(ItemsOf(r.groups) + r.singleSends, chat) == ToChat(sends, chat)
    ensures multiset(ItemsOf(r.groups) + r.singleSends) == multiset(sends)
    ensures forall i :: 0 <= i < |r.groups| ==> WellFormed(r.groups[i])
    ensures r.apiCallCount == CallsFor(Grouped(sends), |Grouped(sends).keys|)
    ensures r.groups == AllGroups(Grouped(sends), |Grouped(sends).keys|)
    ensures r.singleSends == AllSingles(Grouped(sends), |Grouped(sends).keys|)
    ensures r.droppedCaptions == AllDropped(Grouped(sends), |Grouped(sends).keys|)
    ensures forall d :: d in r.droppedCaptions <==> LostInSome(d, r.groups)
    ensures r.totalSends == r.originalApiCallCount == |sends|
    ensures r.apiCallCount == |r.groups| + |r.singleSends| && r.batchedItemCount == |ItemsOf(r.groups)|
  {
    hide Grouped, Chunks, CallsFor, ToChat, ItemsOf, LostInSome;
    var byChat := GroupByChat(sends);
    var groups, singles, dropped := [], [], [];
    for i := 0 to |byChat.keys|
      invariant groups == AllGroups(byChat, i) && singles == AllSingles(byChat, i) && dropped == AllDropped(byChat, i)
    {
      var chunks := ChunkGroups(byChat.vals[byChat.keys[i]], MAX_GROUP_SIZE);
      ChunksAreNotEmpty(byChat.vals[byChat.keys[i]], MAX_GROUP_SIZE);
      groups, singles, dropped := PlaceChunks(chunks, groups, singles, dropped);
    }
    var items := CountItems(groups);
    r := BatchResult(groups, singles, dropped, |sends|, items, |groups| + |singles|, |sends|);
    BatchFacts(sends);
    forall d ensures d in dropped <==> LostInSome(d, groups) { DroppedAreTheOthers(sends, d); }
  }

  /** The quick check says yes exactly when batching makes fewer calls than sending one by one. */
  method ShouldBatch(sends: seq<MediaSend>) returns (yes: bool)
    ensures yes <==> CallsFor(Grouped(sends), |Grouped(sends).keys|) < |sends|
  {
    hide Grouped, CallsFor, WellFormed, ToChat, ItemsOf;
    BatchFacts(sends);
    FewerCallsThanSends(Grouped(sends), |Grouped(sends).keys|);
    var byChat := GroupByChat(sends);
    for i := 0 to |byChat.keys|
      invariant forall j :: 0 <= j < i ==> |byChat.vals[byChat.keys[j]]| < MIN_GROUP_SIZE
    {
      if |byChat.vals[byChat.keys[i]]| >= MIN_GROUP_SIZE {
        return true;
      }
    }
    yes := false;
  }

  // ----- dropped captions -----

  /** The item carries the caption that is reported. */
  predicate CaptionOf(d: DroppedCaption, x: MediaSend) {
    x.caption == Some(d.caption) && d.caption != "" && d.sendId == x.sendId && d.chatId == x.chatId
  }

  lemma {:induction false} CaptionsAre(items: seq<MediaSend>, d: DroppedCaption)
    ensures d in CaptionsOf(items) <==> exists i :: 0 <= i < |items| && CaptionOf(d, items[i])
    ensures |CaptionsOf(items)| <= |items|
  {
    if items != [] {
      CaptionsAre(items[1..], d);
      if i :| 0 <= i < |items| && CaptionOf(d, items[i]) {
        if i > 0 { assert items[1..][i - 1] == items[i]; }
      }
      if j :| 0 <= j < |items[1..]| && CaptionOf(d, items[1..][j]) { assert items[j + 1] == items[1..][j]; }
    }
  }

  /** An item of the group other than its first carries the caption. */
  predicate LostIn(d: DroppedCaption, g: MediaGroup) {
    exists i :: 0 < i < |g.items| && CaptionOf(d, g.items[i])
  }

  lemma LostInIff(items: seq<MediaSend>, d: DroppedCaption)
    requires items != []
    ensures LostIn(d, BuildGroup(items)) <==> d in CaptionsOf(items[1..])
  {
    CaptionsAre(items[1..], d);
    if i :| 0 < i < |items| && CaptionOf(d, items[i]) { assert items[1..][i - 1] == items[i]; }
    if j :| 0 <= j < |items[1..]| && CaptionOf(d, items[1..][j]) { assert items[j + 1] == items[1..][j]; }
  }

  ghost predicate LostInSome(d: DroppedCaption, groups: seq<MediaGroup>) {
    exists j :: 0 <= j < |groups| && LostIn(d, groups[j])
  }

  lemma LostInEither(a: seq<MediaGroup>, b: seq<MediaGroup>, d: DroppedCaption)
    ensures LostInSome(d, a + b) <==> LostInSome(d, a) || LostInSome(d, b)
  {
    if j :| 0 <= j < |a| && LostIn(d, a[j]) { assert (a + b)[j] == a[j]; }
    if j :| 0 <= j < |b| && LostIn(d, b[j]) { assert (a + b)[|a| + j] == b[j]; }
  }

  lemma {:induction false} DroppedFromChunks(chunks: seq<seq<MediaSend>>, d: DroppedCaption)
    requires forall i :: 0 <= i < |chunks| ==> chunks[i] != []
    ensures d in DroppedOf(chunks) <==> LostInSome(d, GroupsOf(chunks))
  {
    if chunks != [] {
      DroppedFromChunks(chunks[1..], d);
      if |chunks[0]| >= MIN_GROUP_SIZE {
        LostInIff(chunks[0], d);
        LostInEither([BuildGroup(chunks[0])], GroupsOf(chunks[1..]), d);
        LostInOne(BuildGroup(chunks[0]), d);
      }
    }
  }

  lemma LostInOne(g: MediaGroup, d: DroppedCaption)
    ensures LostInSome(d, [g]) <==> LostIn(d, g)
  {
    if LostIn(d, g) { assert [g][0] == g; }
  }

  lemma {:induction false} DroppedFromChats(m: ByChat, k: nat, d: DroppedCaption)
    requires k <= |m.keys|
    ensures d in AllDropped(m, k) <==> LostInSome(d, AllGroups(m, k))
  {
    if k > 0 {
      DroppedFromChats(m, k - 1, d);
      ChunksAreNotEmpty(m.vals[m.keys[k - 1]], MAX_GROUP_SIZE);
      DroppedFromChunks(ChatChunks(m, k - 1), d);
      LostInEither(AllGroups(m, k - 1), GroupsOf(ChatChunks(m, k - 1)), d);
    }
  }

  /** The captions reported as dropped are exactly the non-empty ones that items other than the first of a group carry. */
  lemma DroppedAreTheOthers(sends: seq<MediaSend>, d: DroppedCaption)
    ensures var m := Grouped(sends); d in AllDropped(m, |m.keys|) <==> LostInSome(d, AllGroups(m, |m.keys|))
  {
    DroppedFromChats(Grouped(sends), |Grouped(sends).keys|, d);
  }
}
