/** The realtime click feed (hooks/use-realtime.tsx): a held channel handle
    (`channelRef`), the tracked link ids (`linkIdsRef`), and the handlers that
    turn `analytics` INSERT and DELETE notifications into +1 and -1 click
    updates.  The Supabase client is represented by the channels it has open. */
module UseRealtime {
  import opened Common
  import opened Utils

  /** A channel created by `supabase.channel(name)`; `id` tells instances apart. */
  datatype Channel = Channel(id: nat, name: string)

  /** The row a notification carries; `link_id` may be missing (a DELETE
      payload holds only the primary key unless the table says otherwise). */
  datatype Row = Row(linkId: Option<string>)

  /** A `postgres_changes` notification on `analytics`: `payload.new` for an
      INSERT, `payload.old` for a DELETE, either of which may be absent. */
  datatype Change = Insert(newRow: Option<Row>) | Delete(oldRow: Option<Row>)

  /** A call `onAnalyticsUpdate(linkId, change)`. */
  datatype ClickDelta = ClickDelta(linkId: string, change: int)

  /** The callback a notification leads to, when the hook was given an
      `onAnalyticsUpdate` and the tracked ids are `tracked`. */
  function Notification(change: Change, tracked: seq<string>, handlesUpdates: bool): (d: Option<ClickDelta>)
    ensures d.Some? <==>
      && handlesUpdates
      && (change.Insert? ==> change.newRow.Some? && change.newRow.value.linkId.Some?
                             && change.newRow.value.linkId.value in tracked)
      && (change.Delete? ==> change.oldRow.Some? && change.oldRow.value.linkId.Some?
                             && change.oldRow.value.linkId.value in tracked)
    ensures d.Some? && change.Insert? ==> d.value == ClickDelta(change.newRow.value.linkId.value, 1)
    ensures d.Some? && change.Delete? ==> d.value == ClickDelta(change.oldRow.value.linkId.value, -1)
  {
    var row := if change.Insert? then change.newRow else change.oldRow;
    if row.Some? && handlesUpdates && row.value.linkId.Some? && row.value.linkId.value in tracked then
      Some(ClickDelta(row.value.linkId.value, if change.Insert? then 1 else -1))
    else None
  }

  /** The channel name for a user. */
  function ChannelName(userId: string): (name: string)
    ensures |name| == 10 + |userId| && name[..10] == "analytics-" && name[10..] == userId
  {
    "analytics-" + userId
  }

  /** What the status callback reports through `onError`. */
  function StatusError(status: string, reportsErrors: bool): (e: Option<string>)
    ensures e.Some? <==> reportsErrors && status == "CHANNEL_ERROR"
    ensures e.Some? ==> e.value == "Realtime channel error occurred"
  {
    if status == "CHANNEL_ERROR" && reportsErrors then Some("Realtime channel error occurred") else None
  }

  /** The open channels without the one with the given id. */
  function Without(open: seq<Channel>, id: nat): (r: seq<Channel>)
    ensures forall c :: c in r <==> c in open && c.id != id
  {
    if open == [] then []
    else if open[0].id == id then Without(open[1..], id)
    else
      assert open == [open[0]] + open[1..];
      [open[0]] + Without(open[1..], id)
  }

  class Realtime {
    /** `channelRef.current`. */
    var channel: Option<Channel>
    /** `linkIdsRef.current`. */
    var linkIds: seq<string>
    /** The channels the client has open: created and not yet removed. */
    var open: seq<Channel>
    var nextId: nat
    /** Whether the hook was given `onAnalyticsUpdate` and `onError`. */
    const handlesUpdates: bool
    const reportsErrors: bool

    /** Every open channel has been handed out, and the held one is open. */
    ghost predicate Valid()
      reads this
    {
      && (forall c :: c in open ==> c.id < nextId)
      && (channel.Some? ==> channel.value in open)
    }

    /** No channel is open except the held one. */
    ghost predicate NoLeak()
      reads this
    {
      open == (if channel.Some? then [channel.value] else [])
    }

    constructor(handlesUpdates: bool, reportsErrors: bool)
      ensures Valid() && NoLeak()
      ensures channel.None? && linkIds == [] && open == []
      ensures this.handlesUpdates == handlesUpdates && this.reportsErrors == reportsErrors
    {
      channel := None;
      linkIds := [];
      open := [];
      nextId := 0;
      this.handlesUpdates := handlesUpdates;
      this.reportsErrors := reportsErrors;
    }

    /** `isSubscribed`: a handle is held, whether or not the server has
        acknowledged the subscription. */
    function IsSubscribed(): (b: bool)
      reads this
      ensures b <==> channel.Some?
    {
      channel.Some?
    }

    /** `subscribeToAnalytics`.  `setupFailure` is what building the channel
        throws, if anything.  The handle is assigned without releasing one
        already held. */
    method Subscribe(userId: string, setupFailure: Option<Thrown>) returns (reported: Option<string>)
      requires Valid()
      modifies this
      ensures Valid()
      ensures linkIds == old(linkIds)
      ensures userId == "" || setupFailure.Some? ==>
        channel == old(channel) && open == old(open) && nextId == old(nextId)
      ensures userId != "" && setupFailure.None? ==>
        && channel == Some(Channel(old(nextId), ChannelName(userId)))
        && open == old(open) + [channel.value]
        && nextId == old(nextId) + 1
      ensures reported.Some? <==> userId != "" && setupFailure.Some? && reportsErrors
      ensures reported.Some? ==>
        reported.value == "Failed to set up realtime subscription: " + ErrorMessageOr(setupFailure.value, "Unknown error")
    {
      reported := None;
      if userId == "" {
        return;
      }
      if setupFailure.Some? {
        if reportsErrors {
          reported := Some("Failed to set up realtime subscription: " + ErrorMessageOr(setupFailure.value, "Unknown error"));
        }
        return;
      }
      var c := Channel(nextId, ChannelName(userId));
      nextId := nextId + 1;
      open := open + [c];
      channel := Some(c);
    }

    /** `unsubscribeFromAnalytics`: remove the held channel and drop the handle. */
    method Unsubscribe()
      requires Valid()
      modifies this
      ensures Valid() && channel.None?
      ensures linkIds == old(linkIds) && nextId == old(nextId)
      ensures old(channel).Some? ==> open == Without(old(open), old(channel).value.id)
      ensures old(channel).None? ==> open == old(open)
    {
      if channel.Some? {
        open := Without(open, channel.value.id);
        channel := None;
      }
    }

    /** `updateLinkIds`: the tracked ids become exactly the given ones. */
    method UpdateLinkIds(ids: seq<string>)
      modifies this
      ensures linkIds == ids
      ensures channel == old(channel) && open == old(open) && nextId == old(nextId)
    {
      linkIds := ids;
    }

    /** The INSERT and DELETE handlers: the callback a notification leads to. */
    method OnChange(change: Change) returns (delta: Option<ClickDelta>)
      ensures delta == Notification(change, linkIds, handlesUpdates)
    {
      var row := if change.Insert? then change.newRow else change.oldRow;
      delta := None;
      if row.Some? && handlesUpdates {
        var linkId := row.value.linkId;
        if linkId.Some? && linkId.value in linkIds {
          delta := Some(ClickDelta(linkId.value, if change.Insert? then 1 else -1));
        }
      }
    }

    /** The status callback of the held channel: a `CHANNEL_ERROR` is
        reported through `onError`, and the handle is kept. */
    method OnStatus(status: string) returns (reported: Option<string>)
      ensures reported == StatusError(status, reportsErrors)
      ensures reported.Some? ==> reported.value == "Realtime channel error occurred"
    {
      reported := None;
      if status == "CHANNEL_ERROR" && reportsErrors {
        reported := Some("Realtime channel error occurred");
      }
    }

    /** The subscribe/teardown effect when it runs for `userId`: the previous
        run's cleanup releases the held channel first, then a new
        subscription is made for a non-empty user id. */
    method RunEffect(userId: string, setupFailure: Option<Thrown>) returns (reported: Option<string>)
      requires Valid() && NoLeak()
      modifies this
      ensures Valid() && NoLeak()
      ensures linkIds == old(linkIds)
      ensures old(channel).Some? ==> channel != old(channel) && old(channel).value !in open
      ensures channel.Some? <==> userId != "" && setupFailure.None?
      ensures channel.Some? ==> channel.value.name == ChannelName(userId)
      ensures reported.Some? <==> userId != "" && setupFailure.Some? && reportsErrors
      ensures reported.Some? ==>
        reported.value == "Failed to set up realtime subscription: " + ErrorMessageOr(setupFailure.value, "Unknown error")
    {
      Unsubscribe();
      assert open == [];
      reported := Subscribe(userId, setupFailure);
    }

    /** The cleanup when the component unmounts. */
    method Dispose()
      requires Valid() && NoLeak()
      modifies this
      ensures Valid() && NoLeak() && channel.None? && open == []
    {
      Unsubscribe();
    }
  }

  // ------------------------------------------------------------ properties

  /** After `updateLinkIds(ids)` a link dropped from the tracked ids gets no
      callback: the set is replaced, not extended. */
  lemma ReplacedIdsNoLongerTracked(change: Change, before: seq<string>, ids: seq<string>, handlesUpdates: bool)
    requires change.Insert? ==> change.newRow.Some? && change.newRow.value.linkId.Some?
    requires change.Delete? ==> change.oldRow.Some? && change.oldRow.value.linkId.Some?
    requires var id := if change.Insert? then change.newRow.value.linkId.value else change.oldRow.value.linkId.value;
      id in before && id !in ids
    ensures Notification(change, ids, handlesUpdates).None?
  {
  }

  /** An INSERT and a DELETE of the same tracked record cancel out. */
  lemma InsertThenDeleteCancel(r: Row, tracked: seq<string>)
    requires r.linkId.Some? && r.linkId.value in tracked
    ensures Notification(Insert(Some(r)), tracked, true).value.change
          + Notification(Delete(Some(r)), tracked, true).value.change == 0
  {
  }

  /** Unsubscribing twice is the same as once. */
  method UnsubscribeTwice(rt: Realtime)
    requires rt.Valid()
    modifies rt
    ensures rt.channel.None?
    ensures old(rt.channel).Some? ==> rt.open == Without(old(rt.open), old(rt.channel).value.id)
    ensures old(rt.channel).None? ==> rt.open == old(rt.open)
  {
    rt.Unsubscribe();
    var afterFirst := rt.open;
    rt.Unsubscribe();
    assert rt.open == afterFirst;
  }
}
