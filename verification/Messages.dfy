/**
 The owning wrappers as objects: `message`, the consumers, and the calls that consume or hand over
 messages. Native calls may only be made on live handles, so the bodies are free of double frees
 and of uses after a free; the contracts say what each object and nats.c hold afterwards.
 */
module Messages {
  import opened Common
  import opened Handles

  /** nats.c, as far as handles go. */
  class Nats {
    var heap: Heap

    constructor ()
      ensures heap == Heap({}, [])
    {
      heap := Heap({}, []);
    }

    /** natsMsg_Destroy, natsSubscription_Destroy, jsCtx_Destroy, kvEntry_Destroy, kvWatcher_Destroy. */
    method Destroy(h: Option<Handle>)
      requires h.Some? ==> h.value in heap.live
      modifies this
      ensures heap == Drop(old(heap), h)
    {
      heap := Drop(heap, h);
    }

    /** A native call that reads a message and leaves it with the caller. */
    method Read(h: Option<Handle>)
      requires h.Some? ==> h.value in heap.live
    {
    }
  }

  /** `message`: a unique_ptr to a native message. */
  class Message {
    var msg: Option<Handle>

    constructor (raw: Option<Handle>)
      ensures msg == raw
    {
      msg := raw;
    }

    constructor Move(other: Message)
      modifies other
      ensures msg == old(other.msg) && other.msg == None
    {
      msg := other.msg;
      new;
      other.msg := None;
    }

    method Release() returns (raw: Option<Handle>)
      modifies this
      ensures raw == old(msg) && msg == None
    {
      raw := msg;
      msg := None;
    }

    /** unique_ptr's move assignment, `reset(other.release())`: right also onto itself. */
    method MoveAssign(other: Message, nats: Nats)
      requires msg.Some? ==> msg.value in nats.heap.live
      modifies this, other, nats
      ensures this == other ==> msg == old(msg) && nats.heap == old(nats.heap)
      ensures this != other ==> msg == old(other.msg) && other.msg == None && nats.heap == Drop(old(nats.heap), old(msg))
    {
      var taken := other.Release();
      var previous := msg;
      msg := taken;
      nats.Destroy(previous);
    }

    method Destruct(nats: Nats)
      requires msg.Some? ==> msg.value in nats.heap.live
      modifies this, nats
      ensures msg == None && nats.heap == Drop(old(nats.heap), old(msg))
    {
      nats.Destroy(msg);
      msg := None;
    }
  }

  /** `js_pull_consumer`: a raw pointer with hand-written moves. `js_push_consumer`, `jetstream`,
      `kv_entry` and `kv_watcher` have the same shape. */
  class PullConsumer {
    var sub: Option<Handle>

    constructor (sub: Option<Handle>)
      ensures this.sub == sub
    {
      this.sub := sub;
    }

    constructor Move(other: PullConsumer)
      modifies other
      ensures sub == old(other.sub) && other.sub == None
    {
      sub := other.sub;
      new;
      other.sub := None;
    }

    method MoveAssign(other: PullConsumer, nats: Nats)
      requires sub.Some? ==> sub.value in nats.heap.live
      modifies this, other, nats
      ensures this == other ==> sub == old(sub) && nats.heap == old(nats.heap)
      ensures this != other ==> sub == old(other.sub) && other.sub == None && nats.heap == Drop(old(nats.heap), old(sub))
    {
      if this != other {
        nats.Destroy(sub);
        sub := other.sub;
        other.sub := None;
      }
    }

    method Destruct(nats: Nats)
      requires sub.Some? ==> sub.value in nats.heap.live
      modifies this, nats
      ensures sub == None && nats.heap == Drop(old(nats.heap), old(sub))
    {
      nats.Destroy(sub);
      sub := None;
    }

    /** `next()`: takes the first slot of a fetched list; an empty list is a timeout. Either way the
        list is destroyed, and the message handed out is not part of it any more. */
    method Next(fetched: Status, list: array<Option<Handle>>, nats: Nats) returns (status: Status, result: Option<Handle>)
      requires Distinct(nats.heap, list[..])
      modifies list, nats
      ensures status == (if sub.None? then Failed(INVALID_ARG) else if fetched.Failed? then fetched
                         else if list.Length < 1 then Failed(TIMEOUT) else Ok)
      ensures sub.None? || fetched.Failed? ==> nats.heap == old(nats.heap) && list[..] == old(list[..])
      ensures sub.Some? && fetched.Ok? && list.Length < 1 ==> nats.heap == old(nats.heap)
      ensures status.Failed? ==> result == None
      ensures status.Ok? ==>
                && result == old(list[0])
                && nats.heap == DropAll(old(nats.heap), [None] + old(list[1..]))
    {
      result := None;
      if sub.None? {
        return Failed(INVALID_ARG), None;
      }
      if fetched.Failed? {
        return fetched, None;
      }
      if list.Length < 1 {
        DestroyList(list, nats);
        return Failed(TIMEOUT), None;
      }
      result := list[0];
      list[0] := None;
      assert list[..] == [None] + old(list[1..]);
      DestroyList(list, nats);
      return Ok, result;
    }
  }

  const INVALID_ARG: nat := 1
  const TIMEOUT: nat := 2
  const NO_MEMORY: nat := 3

  // ---------------------------------------------------------------- consuming calls

  /** `connection::publish(message)`: the argument is given up to a raw pointer, read by the native
      call and destroyed, before an error is thrown. */
  method Publish(msg: Message, outcome: Status, nats: Nats) returns (status: Status)
    requires msg.msg.Some? ==> msg.msg.value in nats.heap.live
    modifies msg, nats
    ensures status == outcome
    ensures msg.msg == None && nats.heap == Drop(old(nats.heap), old(msg.msg))
  {
    var raw := msg.Release();
    nats.Read(raw);
    nats.Destroy(raw);
    msg.Destruct(nats);
    return outcome;
  }

  /** `jetstream::publish_msg`: without a context it throws before giving the message up; the
      argument's own destructor then destroys it. */
  method PublishMsg(ctx: Option<Handle>, msg: Message, outcome: Status, nats: Nats) returns (status: Status)
    requires msg.msg.Some? ==> msg.msg.value in nats.heap.live
    modifies msg, nats
    ensures status == if ctx.None? then Failed(INVALID_ARG) else outcome
    ensures msg.msg == None && nats.heap == Drop(old(nats.heap), old(msg.msg))
  {
    if ctx.None? {
      msg.Destruct(nats);
      return Failed(INVALID_ARG);
    }
    var raw := msg.Release();
    nats.Read(raw);
    nats.Destroy(raw);
    msg.Destruct(nats);
    return outcome;
  }

  /** `connection::request(message)`: as publish; on success the reply is wrapped. */
  method Request(request: Message, reply: Handle, outcome: Status, nats: Nats) returns (status: Status, result: Option<Message>)
    requires request.msg.Some? ==> request.msg.value in nats.heap.live
    requires reply !in nats.heap.live && reply !in nats.heap.destroyed
    modifies request, nats
    ensures status == outcome && request.msg == None
    ensures outcome.Failed? ==> result == None && nats.heap == Drop(old(nats.heap), old(request.msg))
    ensures outcome.Ok? ==>
              && result.Some? && fresh(result.value) && result.value.msg == Some(reply)
              && reply in nats.heap.live
              && nats.heap == Drop(old(nats.heap).(live := old(nats.heap).live + {reply}), old(request.msg))
  {
    var raw := request.Release();
    nats.Read(raw);
    if outcome.Ok? {
      nats.heap := nats.heap.(live := nats.heap.live + {reply});
    }
    nats.Destroy(raw);
    request.Destruct(nats);
    if outcome.Failed? {
      return outcome, None;
    }
    var wrapped := new Message(Some(reply));
    return Ok, Some(wrapped);
  }

  // ---------------------------------------------------------------- batch hand-over

  /** natsMsgList_Destroy, kvEntryList_Destroy: destroys the entries still in the list. */
  method DestroyList(list: array<Option<Handle>>, nats: Nats)
    requires Distinct(nats.heap, list[..])
    modifies nats
    ensures nats.heap == DropAll(old(nats.heap), list[..])
  {
    assert list[0..] == list[..];
    for i := 0 to list.Length
      invariant Distinct(nats.heap, list[i..])
      invariant DropAll(nats.heap, list[i..]) == DropAll(old(nats.heap), list[..])
    {
      assert list[i..][0] == list[i] && list[i..][1..] == list[i + 1..];
      assert forall k :: 0 <= k < list.Length - i ==> list[i..][k] == list[i + k];
      nats.Destroy(list[i]);
    }
  }

  /** The body `fetch`, `fetch_request` and `history` share. The guard owns the native list from the
      start; every iteration moves one entry from the list to the result, so that at all times the
      result owns exactly the prefix and the list exactly the suffix. When `reserve` throws, the
      guard destroys everything; otherwise it finds only nulls, and the result is the native list in
      order. */
  method TakeAll(list: array<Option<Handle>>, reserved: bool, nats: Nats) returns (status: Status, out: seq<Option<Handle>>)
    requires Distinct(nats.heap, list[..])
    modifies list, nats
    ensures status == if reserved then Ok else Failed(NO_MEMORY)
    ensures !reserved ==> out == [] && nats.heap == DropAll(old(nats.heap), old(list[..]))
    ensures reserved ==> out == old(list[..]) && nats.heap == old(nats.heap) && Distinct(nats.heap, out)
    ensures reserved ==> forall k :: 0 <= k < list.Length ==> list[k] == None
  {
    out := [];
    if !reserved {
      DestroyList(list, nats);
      return Failed(NO_MEMORY), [];
    }
    for i := 0 to list.Length
      modifies list
      invariant out == old(list[..])[..i]
      invariant forall k :: 0 <= k < i ==> list[k] == None
      invariant list[i..] == old(list[..])[i..]
    {
      out := out + [list[i]];
      list[i] := None;
    }
    DropNulls(nats.heap, list[..]);
    DestroyList(list, nats);
    return Ok, out;
  }

  /** Destroying a list of nulls does nothing. */
  lemma {:induction false} DropNulls(n: Heap, hs: seq<Option<Handle>>)
    requires forall k :: 0 <= k < |hs| ==> hs[k] == None
    ensures DropAll(n, hs) == n
    decreases |hs|
  {
    if hs != [] { DropNulls(n, hs[1..]); }
  }

  /** `subscription::fetch`. On success the result owns the fetched messages, in order; destroying it
      later destroys each of them exactly once. On failure nothing is left over. */
  method Fetch(sub: Option<Handle>, fetched: Status, list: array<Option<Handle>>, reserved: bool, nats: Nats)
    returns (status: Status, out: seq<Option<Handle>>)
    requires Distinct(nats.heap, list[..])
    modifies list, nats
    ensures status == (if sub.None? then Failed(INVALID_ARG) else if fetched.Failed? then fetched
                       else if reserved then Ok else Failed(NO_MEMORY))
    ensures sub.None? || fetched.Failed? ==> out == [] && nats.heap == old(nats.heap)
    ensures status.Ok? ==>
              && out == old(list[..]) && nats.heap == old(nats.heap)
              && DropAll(nats.heap, out).destroyed == old(nats.heap).destroyed + Somes(old(list[..]))
    ensures sub.Some? && fetched.Ok? && !reserved ==>
              && out == []
              && nats.heap.destroyed == old(nats.heap).destroyed + Somes(old(list[..]))
              && forall h :: h in nats.heap.live <==> h in old(nats.heap).live && Some(h) !in old(list[..])
  {
    if sub.None? {
      return Failed(INVALID_ARG), [];
    }
    if fetched.Failed? {
      return fetched, [];
    }
    DropAllOnce(nats.heap, list[..]);
    status, out := TakeAll(list, reserved, nats);
  }
}
