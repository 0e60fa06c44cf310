/** packages/harness-pi/src/image-retention.ts: older tool images leave a request in whole batches. */
module ImageRetention {
  import opened Options

  const KEEP_RECENT_TOOL_IMAGES := 4
  const COLLAPSE_THRESHOLD := 8
  const BATCH := COLLAPSE_THRESHOLD - KEEP_RECENT_TOOL_IMAGES

  /** An image by its type and its size in pixels, where its bytes tell it. `Omitted` is the text that
      stands for an image: what it tells, not how it words it. */
  datatype Block =
    | Image(data: string, mimeType: string, dimensions: Option<string>)
    | ToolCall(id: string, name: string, path: Option<string>)
    | Text(text: string)
    | Omitted(mimeType: string, dimensions: Option<string>, tool: string, path: Option<string>)

  datatype Role = User | Assistant | ToolResult

  datatype Message = Message(role: Role, toolCallId: string, toolName: string, content: seq<Block>)

  /** The calls of the conversation by id; a later call with the same id replaces an earlier one. */
  function CallsIn(content: seq<Block>, calls: map<string, Block>): (r: map<string, Block>)
    requires forall id :: id in calls ==> calls[id].ToolCall?
    ensures forall id :: id in r ==> r[id].ToolCall?
  {
    if content == [] then calls
    else
      var before := CallsIn(content[..|content| - 1], calls);
      var last := content[|content| - 1];
      if last.ToolCall? then before[last.id := last] else before
  }

  function Calls(messages: seq<Message>): (r: map<string, Block>)
    ensures forall id :: id in r ==> r[id].ToolCall?
  {
    if messages == [] then map[]
    else
      var before := Calls(messages[..|messages| - 1]);
      var last := messages[|messages| - 1];
      if last.role.Assistant? then CallsIn(last.content, before) else before
  }

  /** What a tool image becomes: it names its call and the path it read, if the call is known. */
  function Replacement(calls: map<string, Block>, message: Message, image: Block): Block
    requires image.Image? && forall id :: id in calls ==> calls[id].ToolCall?
  {
    if message.toolCallId in calls then
      var call := calls[message.toolCallId];
      Omitted(image.mimeType, image.dimensions, call.name, call.path)
    else Omitted(image.mimeType, image.dimensions, message.toolName, None)
  }

  // The images of a conversation, each at its place: the index of its message and of its block.

  type Place = (nat, nat)

  predicate IsToolImage(messages: seq<Message>, p: Place) {
    && p.0 < |messages| && messages[p.0].role.ToolResult?
    && p.1 < |messages[p.0].content| && messages[p.0].content[p.1].Image?
  }

  predicate Before(p: Place, q: Place) {
    p.0 < q.0 || (p.0 == q.0 && p.1 < q.1)
  }

  function ImagesIn(content: seq<Block>): nat {
    if content == [] then 0
    else ImagesIn(content[..|content| - 1]) + if content[|content| - 1].Image? then 1 else 0
  }

  function ImagesOf(message: Message): nat {
    if message.role.ToolResult? then ImagesIn(message.content) else 0
  }

  function Total(messages: seq<Message>): nat {
    if messages == [] then 0 else Total(messages[..|messages| - 1]) + ImagesOf(messages[|messages| - 1])
  }

  /** How many tool images stand before a place: its position in conversation order. */
  function Rank(messages: seq<Message>, p: Place): nat
    requires p.0 < |messages| && p.1 <= |messages[p.0].content|
  {
    Total(messages[..p.0]) + if messages[p.0].role.ToolResult? then ImagesIn(messages[p.0].content[..p.1]) else 0
  }

  /** How many of `total` images are collapsed. */
  function CollapseBefore(total: nat): (k: nat)
  {
    if total <= COLLAPSE_THRESHOLD then 0 else (total - KEEP_RECENT_TOOL_IMAGES) / BATCH * BATCH
  }

  /** What must stand at `block`: a tool image among the first `k` is replaced, all else stays. */
  function Expected(messages: seq<Message>, k: nat, p: Place): Block
    requires p.0 < |messages| && p.1 < |messages[p.0].content|
  {
    var message := messages[p.0];
    var block := message.content[p.1];
    if IsToolImage(messages, p) && Rank(messages, p) < k then Replacement(Calls(messages), message, block) else block
  }

  ghost predicate MessageReplaced(messages: seq<Message>, k: nat, i: nat, out: Message)
    requires i < |messages|
  {
    && out.(content := messages[i].content) == messages[i]
    && |out.content| == |messages[i].content|
    && forall j :: 0 <= j < |out.content| ==> out.content[j] == Expected(messages, k, (i, j))
  }

  /** The conversation with exactly its first `k` tool images replaced; everything else as it was. */
  ghost predicate FirstReplaced(messages: seq<Message>, k: nat, r: seq<Message>) {
    && |r| == |messages|
    && forall i :: 0 <= i < |messages| ==> MessageReplaced(messages, k, i, r[i])
  }

  method CountImages(messages: seq<Message>) returns (total: nat)
    ensures total == Total(messages)
  {
    total := 0;
    for m := 0 to |messages|
      invariant total == Total(messages[..m])
    {
      assert messages[..m + 1][..m] == messages[..m];
      if messages[m].role.ToolResult? {
        var content := messages[m].content;
        var count := 0;
        for b := 0 to |content|
          invariant count == ImagesIn(content[..b])
        {
          assert content[..b + 1][..b] == content[..b];
          if content[b].Image? {
            count := count + 1;
          }
        }
        assert content[..|content|] == content;
        total := total + count;
      }
    }
    assert messages[..|messages|] == messages;
  }

  method CollectCalls(messages: seq<Message>) returns (calls: map<string, Block>)
    ensures calls == Calls(messages)
  {
    calls := map[];
    for m := 0 to |messages|
      invariant calls == Calls(messages[..m])
    {
      assert messages[..m + 1][..m] == messages[..m];
      if messages[m].role.Assistant? {
        var content := messages[m].content;
        ghost var before := calls;
        for b := 0 to |content|
          invariant calls == CallsIn(content[..b], before)
        {
          assert content[..b + 1][..b] == content[..b];
          if content[b].ToolCall? {
            calls := calls[content[b].id := content[b]];
          }
        }
        assert content[..|content|] == content;
      }
    }
    assert messages[..|messages|] == messages;
  }

  /** One block of a tool result behind `before` images. */
  function Retained(calls: map<string, Block>, message: Message, collapseBefore: nat, before: nat, block: Block): Block
    requires forall id :: id in calls ==> calls[id].ToolCall?
  {
    if block.Image? && before < collapseBefore then Replacement(calls, message, block) else block
  }

  /** A tool result behind `start` images, block by block. */
  function RetainedAll(calls: map<string, Block>, message: Message, collapseBefore: nat, start: nat,
                       content: seq<Block>): seq<Block>
    requires forall id :: id in calls ==> calls[id].ToolCall?
  {
    if content == [] then []
    else
      var init, last := content[..|content| - 1], content[|content| - 1];
      RetainedAll(calls, message, collapseBefore, start, init)
      + [Retained(calls, message, collapseBefore, start + ImagesIn(init), last)]
  }

  lemma {:induction false} RetainedAt(calls: map<string, Block>, message: Message, collapseBefore: nat, start: nat,
                                      content: seq<Block>, j: nat)
    requires forall id :: id in calls ==> calls[id].ToolCall?
    requires j < |content|
    ensures |RetainedAll(calls, message, collapseBefore, start, content)| == |content|
    ensures RetainedAll(calls, message, collapseBefore, start, content)[j]
            == Retained(calls, message, collapseBefore, start + ImagesIn(content[..j]), content[j])
  {
    var n := |content| - 1;
    if n > 0 {
      RetainedAt(calls, message, collapseBefore, start, content[..n], if j < n then j else 0);
      assert j < n ==> content[..n][..j] == content[..j];
    }
  }

  /** One tool result. `index` counts the images seen so far in the whole conversation. */
  method RetainIn(message: Message, calls: map<string, Block>, collapseBefore: nat, start: nat)
    returns (content: seq<Block>, index: nat)
    requires forall id :: id in calls ==> calls[id].ToolCall?
    ensures index == start + ImagesIn(message.content)
    ensures content == RetainedAll(calls, message, collapseBefore, start, message.content)
  {
    content, index := [], start;
    for b := 0 to |message.content|
      invariant index == start + ImagesIn(message.content[..b])
      invariant content == RetainedAll(calls, message, collapseBefore, start, message.content[..b])
    {
      assert message.content[..b + 1][..b] == message.content[..b];
      var block := message.content[b];
      if block.Image? {
        if index < collapseBefore {
          block := Replacement(calls, message, block);
        }
        index := index + 1;
      }
      content := content + [block];
    }
    assert message.content[..|message.content|] == message.content;
  }

  lemma {:induction false} RetainedIsReplaced(messages: seq<Message>, m: nat, k: nat)
    requires m < |messages| && messages[m].role.ToolResult?
    ensures MessageReplaced(messages, k, m, messages[m].(content :=
              RetainedAll(Calls(messages), messages[m], k, Total(messages[..m]), messages[m].content)))
  {
    var content := messages[m].content;
    var retained := RetainedAll(Calls(messages), messages[m], k, Total(messages[..m]), content);
    if content == [] {
      assert retained == [];
    } else {
      RetainedAt(Calls(messages), messages[m], k, Total(messages[..m]), content, 0);
    }
    forall j | 0 <= j < |content|
      ensures retained[j] == Expected(messages, k, (m, j))
    {
      RetainedAt(Calls(messages), messages[m], k, Total(messages[..m]), content, j);
    }
  }

  /** One message, behind `start` images. */
  method RetainMessage(ghost messages: seq<Message>, m: nat, message: Message, calls: map<string, Block>,
                       collapseBefore: nat, start: nat)
    returns (out: Message, index: nat)
    requires m < |messages| && message == messages[m] && calls == Calls(messages) && start == Total(messages[..m])
    ensures index == Total(messages[..m + 1]) && MessageReplaced(messages, collapseBefore, m, out)
  {
    assert messages[..m + 1][..m] == messages[..m];
    out, index := message, start;
    if message.role.ToolResult? {
      var content;
      content, index := RetainIn(message, calls, collapseBefore, start);
      out := message.(content := content);
      RetainedIsReplaced(messages, m, collapseBefore);
    }
  }

  /** At most eight tool images are left alone; otherwise the counter replaces exactly the first ones. */
  method RetainRecentToolImages(messages: seq<Message>) returns (r: Option<seq<Message>>)
    ensures r.None? <==> Total(messages) <= 8
    ensures r.Some? ==> FirstReplaced(messages, CollapseBefore(Total(messages)), r.value)
  {
    var total := CountImages(messages);
    if total <= COLLAPSE_THRESHOLD {
      return None;
    }
    var collapseBefore := (total - KEEP_RECENT_TOOL_IMAGES) / BATCH * BATCH;
    var calls := CollectCalls(messages);
    var index := 0;
    var retained := [];
    for m := 0 to |messages|
      invariant |retained| == m && index == Total(messages[..m])
      invariant forall i :: 0 <= i < m ==> MessageReplaced(messages, collapseBefore, i, retained[i])
    {
      var out;
      out, index := RetainMessage(messages, m, messages[m], calls, collapseBefore, index);
      retained := retained + [out];
    }
    return Some(retained);
  }

  // What replacing the first images means.

  /** Rank is conversation order: a later image has a larger rank, and every rank is below the total. */
  lemma {:induction false} TotalSplits(messages: seq<Message>, i: nat)
    requires i <= |messages|
    ensures Total(messages) >= Total(messages[..i])
    ensures i < |messages| ==> Total(messages) >= Total(messages[..i]) + ImagesOf(messages[i])
  {
    if i < |messages| {
      var init := messages[..|messages| - 1];
      if i < |messages| - 1 {
        TotalSplits(init, i);
        assert init[..i] == messages[..i];
      }
    } else {
      assert messages[..i] == messages;
    }
  }

  lemma {:induction false} ImagesSplit(content: seq<Block>, j: nat)
    requires j <= |content|
    ensures ImagesIn(content) >= ImagesIn(content[..j])
    ensures j < |content| && content[j].Image? ==> ImagesIn(content) > ImagesIn(content[..j])
  {
    if j < |content| {
      var init := content[..|content| - 1];
      if j < |content| - 1 {
        ImagesSplit(init, j);
        assert init[..j] == content[..j];
      }
    } else {
      assert content[..j] == content;
    }
  }

  lemma {:induction false} RankIsOrder(messages: seq<Message>, p: Place, q: Place)
    requires IsToolImage(messages, p) && IsToolImage(messages, q)
    ensures Before(p, q) ==> Rank(messages, p) < Rank(messages, q)
    ensures Rank(messages, p) < Total(messages)
  {
    ImagesSplit(messages[p.0].content, p.1);
    TotalSplits(messages, p.0);
    if p.0 < q.0 {
      assert messages[..q.0][..p.0] == messages[..p.0];
      TotalSplits(messages[..q.0], p.0);
    } else if p.0 == q.0 && p.1 < q.1 {
      assert messages[q.0].content[..q.1][..p.1] == messages[p.0].content[..p.1];
      ImagesSplit(messages[q.0].content[..q.1], p.1);
    }
  }

  /** What is kept is a suffix of the images: whatever stands behind a kept image is kept. */
  lemma KeptImagesAreTheLast(messages: seq<Message>, k: nat, r: seq<Message>, p: Place, q: Place)
    requires FirstReplaced(messages, k, r) && IsToolImage(messages, p) && IsToolImage(messages, q) && Before(p, q)
    requires IsToolImage(r, p)
    ensures q.1 < |r[q.0].content| && r[q.0].content[q.1] == messages[q.0].content[q.1]
  {
    RankIsOrder(messages, p, q);
    assert MessageReplaced(messages, k, p.0, r[p.0]) && MessageReplaced(messages, k, q.0, r[q.0]);
    assert r[p.0].content[p.1] == Expected(messages, k, p);
    assert r[q.0].content[q.1] == Expected(messages, k, q);
  }

  lemma {:induction false} ReplacedIn(content: seq<Block>, replaced: seq<Block>, start: nat, k: nat)
    requires |content| == |replaced|
    requires forall j :: 0 <= j < |content| ==>
               if content[j].Image? && start + ImagesIn(content[..j]) < k then replaced[j].Omitted?
               else replaced[j] == content[j]
    ensures ImagesIn(replaced) + Min(k, start + ImagesIn(content)) == Min(k, start) + ImagesIn(content)
  {
    if content != [] {
      var n := |content| - 1;
      forall j | 0 <= j < n
        ensures content[..n][..j] == content[..j]
      {
      }
      ReplacedIn(content[..n], replaced[..n], start, k);
    }
  }

  function Min(a: nat, b: nat): nat {
    if a < b then a else b
  }

  lemma {:induction false} ReplacedMessage(messages: seq<Message>, k: nat, i: nat, out: Message)
    requires i < |messages| && MessageReplaced(messages, k, i, out)
    ensures var before := Total(messages[..i]);
            ImagesOf(out) + Min(k, before + ImagesOf(messages[i])) == Min(k, before) + ImagesOf(messages[i])
  {
    if messages[i].role.ToolResult? {
      var content := messages[i].content;
      forall j | 0 <= j < |content|
        ensures if content[j].Image? && Total(messages[..i]) + ImagesIn(content[..j]) < k then out.content[j].Omitted?
                else out.content[j] == content[j]
      {
        assert out.content[j] == Expected(messages, k, (i, j));
      }
      ReplacedIn(content, out.content, Total(messages[..i]), k);
    }
  }

  lemma {:induction false} ReplacedTotal(messages: seq<Message>, k: nat, r: seq<Message>, m: nat)
    requires FirstReplaced(messages, k, r) && m <= |messages|
    ensures Total(r[..m]) + Min(k, Total(messages[..m])) == Total(messages[..m])
  {
    if m > 0 {
      var i := m - 1;
      ReplacedTotal(messages, k, r, i);
      assert r[..m][..i] == r[..i] && messages[..m][..i] == messages[..i];
      ReplacedMessage(messages, k, i, r[i]);
    }
  }

  /** Of more than eight tool images, between four and seven are kept. */
  lemma KeepsFourToSeven(messages: seq<Message>, r: seq<Message>)
    requires Total(messages) > COLLAPSE_THRESHOLD && FirstReplaced(messages, CollapseBefore(Total(messages)), r)
    ensures KEEP_RECENT_TOOL_IMAGES <= Total(r) < COLLAPSE_THRESHOLD
    ensures Total(r) == Total(messages) - CollapseBefore(Total(messages))
  {
    ReplacedTotal(messages, CollapseBefore(Total(messages)), r, |messages|);
    assert r[..|messages|] == r && messages[..|messages|] == messages;
  }

  lemma {:induction false} TotalAppends(messages: seq<Message>, more: seq<Message>)
    ensures Total(messages + more) == Total(messages) + Total(more)
  {
    if more == [] {
      assert messages + more == messages;
    } else {
      TotalAppends(messages, more[..|more| - 1]);
      assert (messages + more)[..|messages + more| - 1] == messages + more[..|more| - 1];
    }
  }

  /** As the conversation grows, the collapsed part only grows, by whole batches: a prefix of the
      request stays the same for batch after batch of images. */
  lemma CollapsesInBatches(messages: seq<Message>, more: seq<Message>)
    ensures CollapseBefore(Total(messages)) <= CollapseBefore(Total(messages + more))
    ensures CollapseBefore(Total(messages)) % BATCH == 0
    ensures Total(more) == 0 ==> CollapseBefore(Total(messages + more)) == CollapseBefore(Total(messages))
  {
    TotalAppends(messages, more);
  }

  // What stands for an omitted image.

  predicate IsCall(messages: seq<Message>, p: Place, id: string) {
    && p.0 < |messages| && messages[p.0].role.Assistant? && p.1 < |messages[p.0].content|
    && messages[p.0].content[p.1].ToolCall? && messages[p.0].content[p.1].id == id
  }

  /** The call is the last one of the conversation with the id. */
  ghost predicate IsLastCall(messages: seq<Message>, p: Place, id: string) {
    IsCall(messages, p, id) && forall q: Place :: IsCall(messages, q, id) ==> !Before(p, q)
  }

  lemma {:induction false} CallsInAreLast(content: seq<Block>, calls: map<string, Block>, id: string) returns (j: nat)
    requires forall id :: id in calls ==> calls[id].ToolCall?
    ensures j <= |content|
    ensures forall k :: j < k < |content| && content[k].ToolCall? ==> content[k].id != id
    ensures j < |content| ==>
              content[j].ToolCall? && content[j].id == id && id in CallsIn(content, calls)
              && CallsIn(content, calls)[id] == content[j]
    ensures j == |content| ==>
              && (forall k :: 0 <= k < |content| && content[k].ToolCall? ==> content[k].id != id)
              && (id in CallsIn(content, calls) <==> id in calls)
              && (id in calls ==> CallsIn(content, calls)[id] == calls[id])
  {
    j := 0;
    if content != [] {
      var n := |content| - 1;
      if content[n].ToolCall? && content[n].id == id {
        j := n;
      } else {
        j := CallsInAreLast(content[..n], calls, id);
        if j == n {
          j := n + 1;
        }
      }
    }
  }

  /** The calls of a conversation are, by id, the last ones with the id. */
  lemma {:induction false} CallsAreLast(messages: seq<Message>, id: string) returns (p: Place)
    ensures id in Calls(messages) ==>
              IsLastCall(messages, p, id) && Calls(messages)[id] == messages[p.0].content[p.1]
    ensures id !in Calls(messages) ==> forall q: Place :: !IsCall(messages, q, id)
  {
    p := (0, 0);
    if messages != [] {
      var n := |messages| - 1;
      var init, last := messages[..n], messages[n];
      p := CallsAreLast(init, id);
      assert forall q: Place :: q.0 < n ==> (IsCall(messages, q, id) <==> IsCall(init, q, id));
      if last.role.Assistant? {
        var j := CallsInAreLast(last.content, Calls(init), id);
        if j < |last.content| {
          p := (n, j);
        }
      }
    }
  }

  /** The block stands for the tool image at the place: it tells its type and its size, and the tool and the path of
      the last call with the id of its message, or the tool the message names if there is no such call. */
  ghost predicate Stands(messages: seq<Message>, p: Place, out: Block)
    requires IsToolImage(messages, p)
  {
    var image, message := messages[p.0].content[p.1], messages[p.0];
    && out.Omitted? && out.mimeType == image.mimeType && out.dimensions == image.dimensions
    && (forall q: Place :: IsLastCall(messages, q, message.toolCallId) ==>
          out.tool == messages[q.0].content[q.1].name && out.path == messages[q.0].content[q.1].path)
    && ((forall q: Place :: !IsCall(messages, q, message.toolCallId)) ==>
          out.tool == message.toolName && out.path == None)
  }

  lemma {:induction false} OneLastCall(messages: seq<Message>, p: Place, q: Place, id: string)
    requires IsLastCall(messages, p, id) && IsLastCall(messages, q, id)
    ensures p == q
  {
    assert !Before(p, q) && !Before(q, p);
  }

  /** Of a conversation with its first `k` tool images replaced: what stands where an image stood tells of that image
      and of the call it came from, and every other block is as it was. */
  lemma {:induction false} ReplacedTells(messages: seq<Message>, k: nat, r: seq<Message>, p: Place)
    requires FirstReplaced(messages, k, r) && p.0 < |messages| && p.1 < |messages[p.0].content|
    ensures p.1 < |r[p.0].content|
    ensures if IsToolImage(messages, p) && Rank(messages, p) < k then Stands(messages, p, r[p.0].content[p.1])
            else r[p.0].content[p.1] == messages[p.0].content[p.1]
  {
    assert MessageReplaced(messages, k, p.0, r[p.0]);
    assert r[p.0].content[p.1] == Expected(messages, k, p);
    if IsToolImage(messages, p) && Rank(messages, p) < k {
      var id := messages[p.0].toolCallId;
      var last := CallsAreLast(messages, id);
      forall q: Place | IsLastCall(messages, q, id)
        ensures id in Calls(messages) && q == last
      {
        if id in Calls(messages) {
          OneLastCall(messages, last, q, id);
        }
      }
    }
  }
}
