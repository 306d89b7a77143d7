/**
  The Pioneer DJ layer on top of the TCNet client: per-layer track IDs and play states,
  updated from every Status broadcast, and the change notifications derived from them.
*/
module Pioneer {
  import opened Wrappers
  import opened Network
  import opened Client

  /** Layers reported by a Status packet. */
  const LayerCount: nat := 8
  /** The value every layer holds before the first Status packet. */
  const Unknown: int := -1

  // ---------------------------------------------------------------------------
  // Which layers changed

  /** The 1-based layers among the first `n` whose old and new values differ, in order. */
  function ChangedPrefix(before: seq<int>, after: seq<int>, n: nat): seq<int>
    requires n <= |before| && n <= |after|
  {
    if n == 0 then []
    else ChangedPrefix(before, after, n - 1) + (if before[n - 1] != after[n - 1] then [n] else [])
  }

  /**
    What `update` returns when `before` is overwritten with `after`: 1-based layer numbers,
    strictly ascending, so at most one per layer (`ChangedLayersExact` says which ones).
  */
  function ChangedLayers(before: seq<int>, after: seq<int>): (r: seq<int>)
    requires |before| == |after|
    ensures |r| <= |before| && Ascending(r)
    ensures forall k :: 0 <= k < |r| ==> 1 <= r[k] <= |before|
  {
    ChangedPrefixExact(before, after, |before|);
    ChangedPrefix(before, after, |before|)
  }

  /** Strictly ascending, hence without duplicates. */
  predicate Ascending(r: seq<int>)
  {
    forall i, j :: 0 <= i < j < |r| ==> r[i] < r[j]
  }

  /** `r` holds exactly the 1-based layers among the first `n` whose values differ. */
  ghost predicate ListsChanges(r: seq<int>, before: seq<int>, after: seq<int>, n: nat)
    requires n <= |before| && n <= |after|
  {
    forall x :: x in r <==> 1 <= x <= n && before[x - 1] != after[x - 1]
  }

  /** The prefix list holds exactly the differing layers, each between 1 and n, ascending. */
  lemma {:induction false} ChangedPrefixExact(before: seq<int>, after: seq<int>, n: nat)
    requires n <= |before| && n <= |after|
    ensures forall k :: 0 <= k < |ChangedPrefix(before, after, n)| ==> 1 <= ChangedPrefix(before, after, n)[k] <= n
    ensures |ChangedPrefix(before, after, n)| <= n
    ensures Ascending(ChangedPrefix(before, after, n))
    ensures ListsChanges(ChangedPrefix(before, after, n), before, after, n)
  {
    if n > 0 {
      var p := ChangedPrefix(before, after, n - 1);
      var tail := if before[n - 1] != after[n - 1] then [n] else [];
      ChangedPrefixExact(before, after, n - 1);
      var r := p + tail;
      assert ChangedPrefix(before, after, n) == r;
      forall x ensures x in r <==> 1 <= x <= n && before[x - 1] != after[x - 1] {
        assert x in r <==> x in p || x in tail;
        assert x in tail <==> x == n && before[n - 1] != after[n - 1];
      }
      forall k | 0 <= k < |r| ensures 1 <= r[k] <= n {
        if k < |p| { assert r[k] == p[k]; } else { assert r[k] == n; }
      }
      forall i, j | 0 <= i < j < |r| ensures r[i] < r[j] {
        assert r[i] == p[i];
        if j < |p| { assert r[j] == p[j]; } else { assert r[j] == n; }
      }
    }
  }

  /**
    `update` reports exactly the layers whose value changed, as 1-based indices in strictly
    ascending order, hence without duplicates.
  */
  lemma ChangedLayersExact(before: seq<int>, after: seq<int>)
    requires |before| == |after|
    ensures ListsChanges(ChangedLayers(before, after), before, after, |before|)
    ensures Ascending(ChangedLayers(before, after))
    ensures |ChangedLayers(before, after)| <= |before|
  {
    ChangedPrefixExact(before, after, |before|);
  }

  /** Overwriting layers with the values they already hold reports nothing. */
  lemma {:induction false} NothingChanged(values: seq<int>, n: nat)
    requires n <= |values|
    ensures ChangedPrefix(values, values, n) == []
  {
    if n > 0 {
      NothingChanged(values, n - 1);
    }
  }

  /** The first update after construction reports every layer whose incoming value is not -1. */
  lemma FirstUpdateReports(incoming: seq<int>)
    requires |incoming| == LayerCount
    ensures ListsChanges(ChangedLayers(seq(LayerCount, _ => Unknown), incoming), seq(LayerCount, _ => Unknown), incoming, LayerCount)
  {
    ChangedLayersExact(seq(LayerCount, _ => Unknown), incoming);
  }

  // ---------------------------------------------------------------------------
  // Layer indices

  /** `LayerIndex`. */
  datatype LayerIndex = Layer1 | Layer2 | Layer3 | Layer4 | LayerA | LayerB | LayerM | LayerC
  {
    function Code(): int
    {
      match this
      case Layer1 => 1 case Layer2 => 2 case Layer3 => 3 case Layer4 => 4
      case LayerA => 5 case LayerB => 6 case LayerM => 7 case LayerC => 8
    }
  }

  /** The `LayerIndex` member with a numeric value, if any. */
  function LayerIndexOf(n: int): (r: Option<LayerIndex>)
    ensures r.Some? ==> r.value.Code() == n
    ensures r.None? ==> forall l: LayerIndex :: l.Code() != n
  {
    if n == 1 then Some(Layer1) else if n == 2 then Some(Layer2)
    else if n == 3 then Some(Layer3) else if n == 4 then Some(Layer4)
    else if n == 5 then Some(LayerA) else if n == 6 then Some(LayerB)
    else if n == 7 then Some(LayerM) else if n == 8 then Some(LayerC)
    else None
  }

  /**
    `LayerIndexUtil.layerToIdx`: the layer number itself. The range 1..4 is only logged,
    so any number passes, including ones that name no layer index.
  */
  function LayerToIdx(layer: int): (idx: int)
    ensures idx == layer
    ensures 1 <= layer <= 4 ==> LayerIndexOf(idx).Some? && LayerIndexOf(idx).value.Code() <= 4
  {
    layer
  }

  /**
    The range check only logs, so the index of a number outside 1..8 is passed on although no
    layer index has it; within 1..4 the index is that of layer n.
  */
  lemma LayerToIdxNames()
    ensures forall n :: !(1 <= n <= LayerCount) ==> LayerIndexOf(LayerToIdx(n)) == None
    ensures forall n :: 1 <= n <= 4 ==> LayerIndexOf(LayerToIdx(n)).Some? && LayerIndexOf(LayerToIdx(n)).value.Code() == n
  {
  }

  // ---------------------------------------------------------------------------
  // State

  /** `PioneerDJState`: the last track ID and the last play state seen on each layer. */
  class PioneerDJState {
    const trackIDs: array<int>
    const statuses: array<int>

    ghost predicate Valid()
    {
      trackIDs.Length == LayerCount && statuses.Length == LayerCount && trackIDs != statuses
    }

    constructor ()
      ensures Valid() && fresh(trackIDs) && fresh(statuses)
      ensures trackIDs[..] == seq(LayerCount, _ => Unknown) && statuses[..] == seq(LayerCount, _ => Unknown)
    {
      trackIDs := new int[LayerCount](_ => Unknown);
      statuses := new int[LayerCount](_ => Unknown);
    }

    /** `trackID(idx)`: entry `idx - 1`; outside 1..8 the array read gives undefined. */
    function TrackID(idx: int): (r: Option<int>)
      requires Valid()
      reads trackIDs
      ensures r.Some? <==> 1 <= idx <= LayerCount
      ensures r.Some? ==> r.value == trackIDs[idx - 1]
    {
      if 1 <= idx <= LayerCount then Some(trackIDs[idx - 1]) else None
    }

    /** `status(idx)`: entry `idx - 1`; outside 1..8 the array read gives undefined. */
    function Status(idx: int): (r: Option<int>)
      requires Valid()
      reads statuses
      ensures r.Some? <==> 1 <= idx <= LayerCount
      ensures r.Some? ==> r.value == statuses[idx - 1]
    {
      if 1 <= idx <= LayerCount then Some(statuses[idx - 1]) else None
    }

    /**
      `update(field, source)`: overwrite each differing entry and collect its 1-based layer.
      Entries that already hold the incoming value are not written.
    */
    method Update(field: array<int>, source: seq<int>) returns (changed: seq<int>)
      requires Valid() && (field == trackIDs || field == statuses)
      requires |source| == LayerCount
      modifies field
      ensures field[..] == source
      ensures changed == ChangedLayers(old(field[..]), source)
    {
      changed := [];
      var i := 0;
      while i < |source|
        invariant 0 <= i <= |source|
        invariant forall k :: 0 <= k < i ==> field[k] == source[k]
        invariant forall k :: i <= k < field.Length ==> field[k] == old(field[k])
        invariant changed == ChangedPrefix(old(field[..]), source, i)
      {
        if field[i] != source[i] {
          field[i] := source[i];
          changed := changed + [i + 1];
        }
        i := i + 1;
      }
    }

    /** `updateTrackIDs`: only the track IDs change. */
    method UpdateTrackIDs(ids: seq<int>) returns (changed: seq<int>)
      requires Valid() && |ids| == LayerCount
      modifies trackIDs
      ensures trackIDs[..] == ids && statuses[..] == old(statuses[..])
      ensures changed == ChangedLayers(old(trackIDs[..]), ids)
    {
      changed := Update(trackIDs, ids);
    }

    /** `updateStatus`: only the play states change. */
    method UpdateStatus(status: seq<int>) returns (changed: seq<int>)
      requires Valid() && |status| == LayerCount
      modifies statuses
      ensures statuses[..] == status && trackIDs[..] == old(trackIDs[..])
      ensures changed == ChangedLayers(old(statuses[..]), status)
    {
      changed := Update(statuses, status);
    }
  }

  // ---------------------------------------------------------------------------
  // Notifications

  /** Events of `PioneerDJTCClient`. */
  datatype Notification = ChangedTrack(layer: int) | ChangedStatus(layer: int) | StatusChange

  /**
    The events one Status packet fires: one "changedtrack" per changed track layer, then one
    "changedstatus" per changed status layer, then "statuschange" if anything changed.
  */
  function StatusNotifications(tracks: seq<int>, statuses: seq<int>): (r: seq<Notification>)
    ensures |r| == |tracks| + |statuses| + (if tracks != [] || statuses != [] then 1 else 0)
    ensures forall k :: 0 <= k < |tracks| ==> r[k] == ChangedTrack(tracks[k])
    ensures forall k :: 0 <= k < |statuses| ==> r[|tracks| + k] == ChangedStatus(statuses[k])
    ensures StatusChange in r <==> tracks != [] || statuses != []
  {
    var perLayer := seq(|tracks|, k requires 0 <= k < |tracks| => ChangedTrack(tracks[k]))
      + seq(|statuses|, k requires 0 <= k < |statuses| => ChangedStatus(statuses[k]));
    assert StatusChange !in perLayer;
    perLayer + (if tracks != [] || statuses != [] then [StatusChange] else [])
  }

  /** A Status body as the Status class reads it: eight layers of each kind. */
  predicate StatusShaped(body: Body)
  {
    body.StatusPacket? ==> |body.status.trackID| == LayerCount && |body.status.layerStatus| == LayerCount
  }

  /** `PioneerDJTCClient`: the state it keeps and the events it has fired. */
  class PioneerDJTCClient {
    const state: PioneerDJState
    var notifications: seq<Notification>

    ghost predicate Valid()
    {
      state.Valid()
    }

    constructor ()
      ensures Valid() && fresh(state) && fresh(state.trackIDs) && fresh(state.statuses)
      ensures state.trackIDs[..] == seq(LayerCount, _ => Unknown)
      ensures state.statuses[..] == seq(LayerCount, _ => Unknown)
      ensures notifications == []
    {
      state := new PioneerDJState();
      notifications := [];
    }

    /**
      `receiveBroadcast`: for a Status packet, both arrays are updated before any event
      fires; every other packet is ignored.
    */
    method ReceiveBroadcast(packet: InPacket)
      requires Valid() && StatusShaped(packet.body)
      modifies state.trackIDs, state.statuses, this`notifications
      ensures Valid()
      ensures packet.body.StatusPacket? ==>
        && state.trackIDs[..] == packet.body.status.trackID
        && state.statuses[..] == packet.body.status.layerStatus
        && notifications == old(notifications) + StatusNotifications(
             ChangedLayers(old(state.trackIDs[..]), packet.body.status.trackID),
             ChangedLayers(old(state.statuses[..]), packet.body.status.layerStatus))
      ensures !packet.body.StatusPacket? ==>
        && state.trackIDs[..] == old(state.trackIDs[..])
        && state.statuses[..] == old(state.statuses[..])
        && notifications == old(notifications)
    {
      if packet.body.StatusPacket? {
        var changedTracks := state.UpdateTrackIDs(packet.body.status.trackID);
        var changedStatus := state.UpdateStatus(packet.body.status.layerStatus);
        notifications := notifications + StatusNotifications(changedTracks, changedStatus);
      }
    }
  }

  /**
    A Status packet that repeats the state already held fires no event at all, and one that
    changes any layer fires "statuschange" exactly once, as the last event.
  */
  lemma StatusChangeOnlyOnChange(tracksBefore: seq<int>, statusBefore: seq<int>, tracks: seq<int>, status: seq<int>)
    requires |tracksBefore| == |tracks| && |statusBefore| == |status|
    ensures var r := StatusNotifications(ChangedLayers(tracksBefore, tracks), ChangedLayers(statusBefore, status));
      && (r == [] <==> tracksBefore == tracks && statusBefore == status)
      && (r != [] ==> r[|r| - 1] == StatusChange && StatusChange !in r[..|r| - 1])
  {
    var ct, cs := ChangedLayers(tracksBefore, tracks), ChangedLayers(statusBefore, status);
    NoChangeIffEqual(tracksBefore, tracks);
    NoChangeIffEqual(statusBefore, status);
    StatusChangeLast(ct, cs);
  }

  /** `update` reports nothing exactly when the new values equal the old ones. */
  lemma NoChangeIffEqual(before: seq<int>, after: seq<int>)
    requires |before| == |after|
    ensures ChangedLayers(before, after) == [] <==> before == after
  {
    var c := ChangedLayers(before, after);
    ChangedLayersExact(before, after);
    if before != after {
      var k :| 0 <= k < |after| && before[k] != after[k];
      assert k + 1 in c;
    } else {
      NothingChanged(after, |after|);
    }
  }

  /** A non-empty list of notifications ends in the one "statuschange". */
  lemma StatusChangeLast(tracks: seq<int>, statuses: seq<int>)
    ensures var r := StatusNotifications(tracks, statuses);
      r != [] ==> r[|r| - 1] == StatusChange && StatusChange !in r[..|r| - 1]
  {
    var r := StatusNotifications(tracks, statuses);
    if r != [] {
      var prefix := r[..|r| - 1];
      forall k | 0 <= k < |prefix| ensures prefix[k] != StatusChange {
        if k < |tracks| {
          assert prefix[k] == ChangedTrack(tracks[k]);
        } else {
          assert prefix[k] == ChangedStatus(statuses[k - |tracks|]);
        }
      }
    }
  }

}
