/** The client object of internal/codex/rpc.go: its pending map and its read loop, run without
    interleaved calls. The interleavings are the business of Rpc. */
module RpcClient {
  import opened Wrappers
  import opened Rpc
  import opened RpcTheorems

  /** The first response of a stream that carries an id. */
  function FirstResponse(frames: seq<Frame>, id: string): Option<Frame> {
    if frames == [] then None
    else if FirstResponse(frames[..|frames| - 1], id).Some? then FirstResponse(frames[..|frames| - 1], id)
    else if IsResponse(frames[|frames| - 1]) && frames[|frames| - 1].id == id then Some(frames[|frames| - 1])
    else None
  }

  lemma {:induction false} FirstResponseIsFirst(frames: seq<Frame>, id: string)
    ensures var r := FirstResponse(frames, id);
            match r
            case None => forall k | 0 <= k < |frames| && frames[k].name == "" && frames[k].id != "" :: frames[k].id != id
            case Some(f) =>
              exists k | 0 <= k < |frames| ::
                && frames[k] == f && f.name == "" && f.id == id != ""
                && forall j | 0 <= j < k && frames[j].name == "" && frames[j].id != "" :: frames[j].id != id
  {
    if frames == [] {
    } else {
      var n := |frames| - 1;
      FirstResponseIsFirst(frames[..n], id);
      if FirstResponse(frames[..n], id).None? && IsResponse(frames[n]) && frames[n].id == id {
        assert frames[n] == FirstResponse(frames, id).value;
        assert forall j | 0 <= j < n && IsResponse(frames[j]) :: frames[..n][j] == frames[j];
      } else if FirstResponse(frames[..n], id).Some? {
        var k :| 0 <= k < n && frames[..n][k] == FirstResponse(frames[..n], id).value
                 && forall j | 0 <= j < k && IsResponse(frames[..n][j]) :: frames[..n][j].id != id;
        assert frames[k] == frames[..n][k];
        assert forall j | 0 <= j < k :: frames[j] == frames[..n][j];
      } else {
        assert forall j | 0 <= j < n :: frames[j] == frames[..n][j];
      }
    }
  }

  /** A waiter's channel: one slot, closed at most once. */
  class Channel {
    var inbox: Option<Frame>
    var closed: bool

    constructor ()
      ensures inbox.None? && !closed
    {
      inbox, closed := None, false;
    }
  }

  class Client {
    var pending: map<string, Channel>
    var failed: bool
    var delivered: seq<Frame>
    var streamsClosed: bool

    /** Every pending waiter is empty and open, and waits under one id. */
    ghost predicate Valid()
      reads this, pending.Values
    {
      && (forall id | id in pending :: pending[id].inbox.None? && !pending[id].closed)
      && (forall i, j | i in pending && j in pending && i != j :: pending[i] != pending[j])
      && (failed ==> pending == map[])
    }

    constructor ()
      ensures Valid() && pending == map[] && !failed && !streamsClosed && delivered == []
    {
      pending, failed, delivered, streamsClosed := map[], false, [], false;
    }

    method RegisterPending(id: string, waiter: Channel) returns (ok: bool)
      requires Valid() && waiter.inbox.None? && !waiter.closed && waiter !in pending.Values && id !in pending
      modifies `pending
      ensures Valid() && ok == !failed
      ensures pending == if ok then old(pending)[id := waiter] else old(pending)
    {
      if failed {
        return false;
      }
      pending := pending[id := waiter];
      return true;
    }

    method UnregisterPending(id: string)
      requires Valid()
      modifies `pending
      ensures Valid() && pending == old(pending) - {id}
    {
      pending := pending - {id};
    }

    /** One frame; `taken` says whether the consumer takes it before the context ends. */
    method Dispatch(frame: Frame, taken: bool) returns (ok: bool)
      requires Valid() && !failed
      modifies `pending, `delivered, pending.Values
      ensures Valid() && !failed
      ensures ok == (frame.name == "" || taken)
      ensures delivered == if frame.name != "" && taken then old(delivered) + [frame] else old(delivered)
      ensures pending == if frame.name == "" && frame.id != "" then old(pending) - {frame.id} else old(pending)
      ensures frame.name == "" && frame.id != "" && frame.id in old(pending) ==>
                old(pending[frame.id]).inbox == Some(frame) && !old(pending[frame.id]).closed
    {
      ok := true;
      if IsResponse(frame) {
        if frame.id in pending {
          var waiter := pending[frame.id];
          pending := pending - {frame.id};
          waiter.inbox := Some(frame);
        } else {
          pending := pending - {frame.id};
        }
      } else if ForConsumer(frame) {
        if taken {
          delivered := delivered + [frame];
        } else {
          ok := false;
        }
      }
    }

    /** The waiters of `was` after the loop read `frames`: answered, or still pending. */
    ghost predicate Serves(was: map<string, Channel>, frames: seq<Frame>)
      reads this, was.Values
    {
      && (forall id | id in pending :: id in was && pending[id] == was[id])
      && (forall id | id in was ::
            && was[id].inbox == FirstResponse(frames, id) && !was[id].closed
            && (was[id].inbox.None? <==> id in pending))
    }

    method ReadOne(ghost was: map<string, Channel>, ghost frames: seq<Frame>, frame: Frame, taken: bool) returns (ok: bool)
      requires Valid() && !failed && Serves(was, frames)
      requires forall i, j | i in was && j in was && i != j :: was[i] != was[j]
      modifies `pending, `delivered, pending.Values
      ensures Valid() && !failed && Serves(was, frames + [frame])
      ensures ok == (frame.name == "" || taken)
      ensures delivered == if frame.name != "" && taken then old(delivered) + [frame] else old(delivered)
    {
      assert (frames + [frame])[..|frames|] == frames;
      ok := Dispatch(frame, taken);
    }

    method Finish()
      requires Valid() && !failed && !streamsClosed
      modifies this, pending.Values
      ensures Valid() && failed && streamsClosed && pending == map[] && delivered == old(delivered)
      ensures forall id | id in old(pending) :: old(pending)[id].closed && old(pending)[id].inbox.None?
    {
      failed := true;
      var rest := pending;
      while |rest| > 0
        invariant pending == old(pending) && failed && delivered == old(delivered)
        invariant forall id | id in rest :: id in pending && rest[id] == pending[id]
        invariant forall id | id in pending :: pending[id].inbox.None? && pending[id].closed == (id !in rest)
        decreases |rest|
      {
        var id :| id in rest;
        rest[id].closed := true;
        rest := rest - {id};
      }
      assert rest == map[];
      pending := map[];
      streamsClosed := true;
    }

    /** The loop over a stream, for a consumer that takes `patience` frames before its context
        ends. Every waiter gets the first response with its id, or is closed. */
    method ReadLoop(frames: seq<Frame>, patience: nat) returns (read: nat)
      requires Valid() && !failed && !streamsClosed
      modifies this, pending.Values
      ensures failed && streamsClosed && pending == map[]
      ensures read <= |frames| && (read == |frames| || |Picked(frames[..read], IsNamed)| == patience + 1)
      ensures var named := Picked(frames[..read], IsNamed);
              delivered == old(delivered) + (if |named| <= patience then named else named[..patience])
      ensures forall id | id in old(pending) ::
                var w := old(pending)[id];
                w.inbox == FirstResponse(frames[..read], id) && (w.closed <==> w.inbox.None?)
    {
      read := 0;
      var taken := 0;
      var ok := true;
      assert frames[..0] == [];
      while read < |frames| && ok
        invariant 0 <= read <= |frames| && Valid() && !failed && !streamsClosed
        invariant Serves(old(pending), frames[..read])
        invariant ok ==> taken == |Picked(frames[..read], IsNamed)| <= patience
                         && delivered == old(delivered) + Picked(frames[..read], IsNamed)
        invariant !ok ==> |Picked(frames[..read], IsNamed)| == patience + 1
                          && delivered == old(delivered) + Picked(frames[..read], IsNamed)[..patience]
        decreases |frames| - read, ok
      {
        var frame := frames[read];
        assert frames[..read + 1] == frames[..read] + [frame];
        PickedAdds(frames[..read], frame, IsNamed);
        ok := ReadOne(old(pending), frames[..read], frame, taken < patience);
        if ok && frame.name != "" {
          taken := taken + 1;
        }
        read := read + 1;
      }
      Finish();
    }
  }
}
