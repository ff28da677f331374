/**
 * `GeofenceUpdateTask`: replaces the device's monitored fences. It reads the
 * previously cached payload, removes the old fences when a new list is given
 * (re-adds the cached ones when it is not), keeps the first `count` entries of
 * the list, caches them, registers them, and tells its listener.
 *
 * Collaborators are reduced to the `Device` class: the cache file is a single
 * `store` field, the Google geofence adapter and the file writes are an
 * appended `trace` of events, and the adapter's success callbacks run at once,
 * on the calling thread, as the source relies on.
 */
module UpdateTask {

  import opened Wrappers
  import opened Decimal
  import opened Geofence

  /** `CTGeofenceSettings.DEFAULT_GEO_MONITOR_COUNT`. */
  const DefaultGeoMonitorCount: nat := 20

  /**
   * The content of the cache file. `Raw` is text that `new JSONObject(..)`
   * rejects (a blank file among others); `Json` is the text of an object, which
   * starts with '{' and so is never blank.
   */
  datatype StoredText = Raw(text: string) | Json(payload: Payload)

  /** A call on a collaborator, in the order the task makes it. */
  datatype Event =
    | Remove(ids: Option<seq<string>>)  // removeAllGeofence; `None` is a null id list
    | Write(payload: Payload)           // writeJsonToFile of the sublist
    | Add(fences: seq<Fence>)           // addAllGeofence
    | Complete                          // the completion listener's onComplete

  /** Index of the first character after the run of characters at or below U+0020 starting at `st`. */
  function SkipLeading(s: string, st: nat): (r: nat)
    requires st <= |s|
    ensures st <= r <= |s|
    ensures forall k :: st <= k < r ==> s[k] <= ' '
    ensures r < |s| ==> s[r] > ' '
    decreases |s| - st
  {
    if st < |s| && s[st] <= ' ' then SkipLeading(s, st + 1) else st
  }

  /** End of `s[st..len]` once its trailing characters at or below U+0020 are dropped. */
  function SkipTrailing(s: string, st: nat, len: nat): (r: nat)
    requires st <= len <= |s|
    ensures st <= r <= len
    ensures forall k :: r <= k < len ==> s[k] <= ' '
    ensures r > st ==> s[r - 1] > ' '
    decreases len
  {
    if st < len && s[len - 1] <= ' ' then SkipTrailing(s, st, len - 1) else len
  }

  /** Java's `String.trim()`: drops leading and trailing characters at or below U+0020. */
  function Trim(s: string): string
  {
    var st := SkipLeading(s, 0);
    s[st..SkipTrailing(s, st, |s|)]
  }

  /** A text is blank after trimming exactly when every character is at or below U+0020. */
  lemma TrimEmptyIffAllWhitespace(s: string)
    ensures Trim(s) == "" <==> forall k :: 0 <= k < |s| ==> s[k] <= ' '
  {
    var st := SkipLeading(s, 0);
    var end := SkipTrailing(s, st, |s|);
    if st < |s| {
      assert s[st] > ' ';
    }
  }

  /** Whether the cached text counts as "no previous fences": `null`, or empty after `trim()`. */
  predicate IsBlank(stored: Option<StoredText>)
    ensures IsBlank(stored) <==>
      stored.None? || (stored.value.Raw? && forall k :: 0 <= k < |stored.value.text| ==> stored.value.text[k] <= ' ')
  {
    match stored
    case None => true
    case Some(Raw(text)) =>
      TrimEmptyIffAllWhitespace(text);
      Trim(text) == ""
    case Some(Json(_)) => false
  }

  /**
   * `Utils.jsonToGeoFenceList`: the string ids of the entries, or `None` when it
   * throws (an entry without an integer id).
   */
  function IdsOf(entries: seq<Entry>): (ids: Option<seq<string>>)
    ensures ids.Some? ==> |ids.value| == |entries|
    ensures ids.Some? ==> forall k :: 0 <= k < |entries| ==>
              entries[k].WellFormed? && ids.value[k] == IntToDecimal(entries[k].id as int)
  {
    if entries == [] then Some([])
    else if entries[0].Malformed? then None
    else
      match IdsOf(entries[1..])
      case None => None
      case Some(rest) =>
        assert forall k :: 1 <= k < |entries| ==> entries[k] == entries[1..][k - 1];
        Some([IntToDecimal(entries[0].id as int)] + rest)
  }

  /** The id list of a cached object; a missing `geofences` array makes the lookup throw. */
  function IdList(p: Payload): (ids: Option<seq<string>>)
    ensures ids.Some? ==> p.geofences.Some? && |ids.value| == |p.geofences.value|
  {
    match p.geofences
    case None => None
    case Some(entries) => IdsOf(entries)
  }

  /** The ids of a list of records. */
  function FenceIds(fences: seq<Fence>): (ids: seq<string>)
    ensures |ids| == |fences|
    ensures forall k :: 0 <= k < |fences| ==> ids[k] == fences[k].id
  {
    if fences == [] then [] else [fences[0].id] + FenceIds(fences[1..])
  }

  /** When the id list can be read, it names exactly the fences that `from` registers from that payload. */
  lemma {:induction false} IdListNamesParsedFences(entries: seq<Entry>)
    ensures IdsOf(entries).Some? ==> IdsOf(entries).value == FenceIds(ParseEntries(entries))
    ensures IdsOf(entries).Some? <==> forall k :: 0 <= k < |entries| ==> entries[k].WellFormed?
  {
    if entries != [] {
      IdListNamesParsedFences(entries[1..]);
      if entries[0].WellFormed? && IdsOf(entries[1..]).None? {
        var k :| 0 <= k < |entries[1..]| && !entries[1..][k].WellFormed?;
        assert !entries[k + 1].WellFormed?;
      }
      if entries[0].WellFormed? && !(forall k :: 0 <= k < |entries[1..]| ==> entries[1..][k].WellFormed?) {
        var k :| 0 <= k < |entries[1..]| && !entries[1..][k].WellFormed?;
        assert !entries[k + 1].WellFormed?;
      }
      if forall k :: 0 <= k < |entries| ==> entries[k].WellFormed? {
        forall k | 0 <= k < |entries[1..]| ensures entries[1..][k].WellFormed? {
          assert entries[1..][k] == entries[k + 1];
        }
      }
    }
  }

  /** The monitoring count from settings, or the default when there are no settings. */
  function ConfiguredCount(settings: Option<nat>): (count: nat)
    ensures settings.None? ==> count == DefaultGeoMonitorCount
    ensures settings.Some? ==> count == settings.value
  {
    settings.GetOr(DefaultGeoMonitorCount)
  }

  /** The requested count, lowered to the number of available entries, never raised. */
  function EffectiveCount(configured: nat, available: nat): (n: nat)
    ensures n <= configured && n <= available
    ensures n == configured || n == available
  {
    if configured > available then available else configured
  }

  /**
   * The object written to the cache: the first `count` entries, in order, or the
   * empty object when the payload has no `geofences` array.
   */
  function SubList(p: Payload, count: nat): (sub: Payload)
    ensures p.geofences.None? ==> sub == EmptyObject
    ensures p.geofences.Some? ==> sub.geofences.Some? && sub.geofences.value <= p.geofences.value
    ensures p.geofences.Some? ==> |sub.geofences.value| == EffectiveCount(count, |p.geofences.value|)
  {
    match p.geofences
    case None => EmptyObject
    case Some(entries) => Payload(Some(entries[..EffectiveCount(count, |entries|)]))
  }

  /** What `addGeofences(obj)` does: nothing for `null`; otherwise write, then add, then complete. */
  function AddEvents(obj: Option<Payload>, settings: Option<nat>, hasListener: bool): (events: seq<Event>)
    ensures events == [] <==> obj.None?
    ensures |events| <= 3
    ensures forall k :: 0 <= k < |events| ==> !events[k].Remove?
  {
    match obj
    case None => []
    case Some(p) =>
      var sub := SubList(p, ConfiguredCount(settings));
      [Write(sub), Add(Parsed(sub))] + (if hasListener then [Complete] else [])
  }

  /** The previous payload as `execute` reads it: absent, or present with its object and id list (each null on a parse failure). */
  datatype Prior = NoPrior | Prior(obj: Option<Payload>, ids: Option<seq<string>>)

  function ReadPrior(stored: Option<StoredText>): (prior: Prior)
    ensures prior.NoPrior? <==> IsBlank(stored)
    ensures prior.Prior? ==> (prior.obj.Some? <==> stored.value.Json?)
    ensures prior.Prior? && prior.obj.Some? ==>
              prior.obj.value == stored.value.payload && prior.ids == IdList(prior.obj.value)
    ensures prior.Prior? && prior.obj.None? ==> prior.ids.None?
  {
    if IsBlank(stored) then NoPrior
    else
      match stored.value
      case Raw(_) => Prior(None, None)
      case Json(p) => Prior(Some(p), IdList(p))
  }

  /** The payload that reaches `addGeofences`: the new list, or the cached one on the reboot path. */
  function AddedPayload(stored: Option<StoredText>, fenceList: Option<Payload>): (added: Option<Payload>)
    ensures fenceList.Some? ==> added == fenceList
    ensures fenceList.None? ==> (added.Some? <==> stored.Some? && stored.value.Json?)
    ensures fenceList.None? && added.Some? ==> added.value == stored.value.payload
  {
    match ReadPrior(stored)
    case NoPrior => fenceList
    case Prior(obj, _) => if fenceList.Some? then fenceList else obj
  }

  /** Every call `execute` makes, in order. */
  function ExecuteEvents(stored: Option<StoredText>, fenceList: Option<Payload>,
                         settings: Option<nat>, hasListener: bool): (events: seq<Event>)
    ensures (|events| > 0 && events[0].Remove?) <==> !IsBlank(stored) && fenceList.Some?
    ensures forall k :: 0 < k < |events| ==> !events[k].Remove?
  {
    var removal :=
      match ReadPrior(stored)
      case Prior(_, ids) => if fenceList.Some? then [Remove(ids)] else []
      case NoPrior => [];
    removal + AddEvents(AddedPayload(stored, fenceList), settings, hasListener)
  }

  /** The cache after `execute`: the sublist when it was written successfully, else unchanged. */
  function StoreAfter(stored: Option<StoredText>, fenceList: Option<Payload>,
                      settings: Option<nat>, writeOk: bool): (after: Option<StoredText>)
    ensures !writeOk || AddedPayload(stored, fenceList).None? ==> after == stored
    ensures writeOk && AddedPayload(stored, fenceList).Some? ==> after.Some? && after.value.Json?
  {
    match AddedPayload(stored, fenceList)
    case None => stored
    case Some(p) => if writeOk then Some(Json(SubList(p, ConfiguredCount(settings)))) else stored
  }

  /** The events of `execute` are an optional removal of the old ids followed by the add. */
  lemma ExecuteEventsSplit(stored: Option<StoredText>, fenceList: Option<Payload>,
                           settings: Option<nat>, hasListener: bool)
    ensures ExecuteEvents(stored, fenceList, settings, hasListener)
            == (if !IsBlank(stored) && fenceList.Some? then [Remove(ReadPrior(stored).ids)] else [])
               + AddEvents(AddedPayload(stored, fenceList), settings, hasListener)
  {
  }

  /** Whether a list of events holds a removal. */
  predicate HasRemove(events: seq<Event>)
  {
    exists k :: 0 <= k < |events| && events[k].Remove?
  }

  /**
   * `addGeofences`: nothing for a null object; otherwise exactly a write of the
   * sublist, then an add of the records parsed from that same sublist, then the
   * completion when a listener is set. It never removes.
   */
  lemma AddEventsShape(obj: Option<Payload>, settings: Option<nat>, hasListener: bool)
    ensures !HasRemove(AddEvents(obj, settings, hasListener))
    ensures obj.None? ==> AddEvents(obj, settings, hasListener) == []
    ensures obj.Some? ==>
      var events := AddEvents(obj, settings, hasListener);
      var sub := SubList(obj.value, ConfiguredCount(settings));
      && |events| == (if hasListener then 3 else 2)
      && events[0] == Write(sub) && events[1] == Add(Parsed(sub))
      && (hasListener ==> events[2] == Complete)
  {
  }

  /** No usable previous payload: the new list goes straight to add, with no removal. */
  lemma BlankCacheSkipsRemoval(stored: Option<StoredText>, fenceList: Option<Payload>,
                               settings: Option<nat>, hasListener: bool)
    requires IsBlank(stored)
    ensures ExecuteEvents(stored, fenceList, settings, hasListener) == AddEvents(fenceList, settings, hasListener)
    ensures !HasRemove(ExecuteEvents(stored, fenceList, settings, hasListener))
  {
    AddEventsShape(fenceList, settings, hasListener);
  }

  /**
   * A previous payload and a new list: one removal of the old ids comes first,
   * then the new list is added (inside the removal's callback); no other removal.
   */
  lemma ReplaceRemovesOnceThenAdds(stored: Option<StoredText>, fenceList: Option<Payload>,
                                   settings: Option<nat>, hasListener: bool)
    requires !IsBlank(stored) && fenceList.Some?
    ensures var events := ExecuteEvents(stored, fenceList, settings, hasListener);
      && events == [Remove(ReadPrior(stored).ids)] + AddEvents(fenceList, settings, hasListener)
      && forall k :: 0 < k < |events| ==> !events[k].Remove?
  {
    AddEventsShape(fenceList, settings, hasListener);
    var events := ExecuteEvents(stored, fenceList, settings, hasListener);
    forall k | 0 < k < |events| ensures !events[k].Remove? {
      assert events[k] == AddEvents(fenceList, settings, hasListener)[k - 1];
    }
  }

  /** Reboot path: a previous payload and no new list: nothing is removed and the cached payload is added back. */
  lemma RebootReAddsCached(stored: Option<StoredText>, settings: Option<nat>, hasListener: bool)
    requires !IsBlank(stored)
    ensures ExecuteEvents(stored, None, settings, hasListener)
         == AddEvents(ReadPrior(stored).obj, settings, hasListener)
    ensures !HasRemove(ExecuteEvents(stored, None, settings, hasListener))
  {
    AddEventsShape(ReadPrior(stored).obj, settings, hasListener);
  }

  /**
   * `execute` makes no call at all, and leaves the cache alone, exactly when
   * there is no new list and no readable cached object.
   */
  lemma NothingToReconcileIsNoOp(stored: Option<StoredText>, fenceList: Option<Payload>,
                                 settings: Option<nat>, hasListener: bool, writeOk: bool)
    ensures ExecuteEvents(stored, fenceList, settings, hasListener) == []
        <==> fenceList.None? && !(stored.Some? && stored.value.Json?)
    ensures fenceList.None? && !(stored.Some? && stored.value.Json?) ==>
              StoreAfter(stored, fenceList, settings, writeOk) == stored
  {
    AddEventsShape(AddedPayload(stored, fenceList), settings, hasListener);
  }

  /**
   * A cached text that cannot be read as an object, or whose id list cannot be
   * read, is not fatal: with a new list, the removal still happens, with a null
   * id list, and the new list is added.
   */
  lemma UnreadableCacheStillRemoves(stored: Option<StoredText>, fenceList: Option<Payload>,
                                    settings: Option<nat>, hasListener: bool)
    requires !IsBlank(stored) && fenceList.Some?
    requires stored.value.Raw? || IdList(stored.value.payload).None?
    ensures ExecuteEvents(stored, fenceList, settings, hasListener)
         == [Remove(None)] + AddEvents(fenceList, settings, hasListener)
  {
  }

  /**
   * The sublist is the first `count` entries in their original order, fewer only
   * when there are fewer entries; a payload without an array gives the empty object.
   */
  lemma SubListIsCappedPrefix(p: Payload, count: nat)
    ensures p.geofences.None? ==> SubList(p, count) == EmptyObject
    ensures p.geofences.Some? ==>
      var entries := p.geofences.value;
      var sub := SubList(p, count).geofences;
      && sub.Some? && sub.value <= entries
      && |sub.value| <= count
      && (count <= |entries| ==> |sub.value| == count)
      && (count >= |entries| ==> sub.value == entries)
  {
  }

  /** The records registered from the sublist are the first records of the whole list, in order. */
  lemma RegisteredArePrefixOfAll(p: Payload, count: nat)
    ensures Parsed(SubList(p, count)) <= Parsed(p)
    ensures |Parsed(SubList(p, count))| <= count
  {
    if p.geofences.Some? {
      var entries := p.geofences.value;
      var n := EffectiveCount(count, |entries|);
      ParsePrefix(entries, n);
      ParsedShape(entries[..n]);
    }
  }

  /** Capping a sublist again with the same count changes nothing. */
  lemma SubListIdempotent(p: Payload, count: nat)
    ensures SubList(SubList(p, count), count) == SubList(p, count)
  {
    if p.geofences.Some? {
      var entries := p.geofences.value;
      var n := EffectiveCount(count, |entries|);
      assert entries[..n][..n] == entries[..n];
    }
  }

  /**
   * The write always comes before the add, the add registers what was written,
   * and neither depends on whether the write succeeded: only the cache does.
   */
  lemma WriteBeforeAddWhateverTheWrite(stored: Option<StoredText>, fenceList: Option<Payload>,
                                       settings: Option<nat>, hasListener: bool)
    requires AddedPayload(stored, fenceList).Some?
    ensures var events := ExecuteEvents(stored, fenceList, settings, hasListener);
      var sub := SubList(AddedPayload(stored, fenceList).value, ConfiguredCount(settings));
      exists i :: 0 <= i < |events| - 1 && events[i] == Write(sub) && events[i + 1] == Add(Parsed(sub))
    ensures StoreAfter(stored, fenceList, settings, false) == stored
  {
    var events := ExecuteEvents(stored, fenceList, settings, hasListener);
    var added := AddEvents(AddedPayload(stored, fenceList), settings, hasListener);
    AddEventsShape(AddedPayload(stored, fenceList), settings, hasListener);
    var i := |events| - |added|;
    assert events[i] == added[0] && events[i + 1] == added[1];
  }

  /** A payload without a `geofences` array makes the empty object be written and no record be added. */
  lemma MissingArrayWritesEmptyObject(p: Payload, settings: Option<nat>, hasListener: bool)
    requires p.geofences.None?
    ensures AddEvents(Some(p), settings, hasListener)[..2] == [Write(EmptyObject), Add([])]
  {
  }

  /**
   * The listener is told exactly when a listener is set and something was
   * added, and only as the very last event, right after the add.
   */
  lemma CompleteOnlyAfterAdd(stored: Option<StoredText>, fenceList: Option<Payload>,
                             settings: Option<nat>, hasListener: bool)
    ensures var events := ExecuteEvents(stored, fenceList, settings, hasListener);
      && ((exists k :: 0 <= k < |events| && events[k] == Complete)
          <==> hasListener && AddedPayload(stored, fenceList).Some?)
      && forall k :: 0 <= k < |events| && events[k] == Complete ==>
           k == |events| - 1 && k > 0 && events[k - 1].Add?
  {
    var events := ExecuteEvents(stored, fenceList, settings, hasListener);
    var added := AddEvents(AddedPayload(stored, fenceList), settings, hasListener);
    AddEventsShape(AddedPayload(stored, fenceList), settings, hasListener);
    ExecuteEventsSplit(stored, fenceList, settings, hasListener);
    var i := |events| - |added|;
    assert forall k :: 0 <= k < i ==> events[k].Remove?;
    if hasListener && AddedPayload(stored, fenceList).Some? {
      assert events[i + 2] == Complete;
    }
    forall k | 0 <= k < |events| && events[k] == Complete
      ensures k == |events| - 1 && k > 0 && events[k - 1].Add?
    {
      assert events[k] == added[k - i];
    }
  }

  /** Whatever is cached after a run holds at most the configured number of entries. */
  lemma CacheWithinCap(stored: Option<StoredText>, fenceList: Option<Payload>,
                       settings: Option<nat>, writeOk: bool)
    requires writeOk && AddedPayload(stored, fenceList).Some?
    ensures var after := StoreAfter(stored, fenceList, settings, writeOk);
      after.Some? && after.value.Json?
      && (after.value.payload.geofences.Some? ==>
            |after.value.payload.geofences.value| <= ConfiguredCount(settings))
  {
  }

  /** Whether a cache holds at most `count` entries (an unreadable or absent cache holds none). */
  predicate WithinCap(stored: Option<StoredText>, count: nat)
  {
    stored.Some? && stored.value.Json? && stored.value.payload.geofences.Some? ==>
      |stored.value.payload.geofences.value| <= count
  }

  /** A cache within the cap stays within the cap after a run, whether or not the write succeeds. */
  lemma CacheStaysWithinCap(stored: Option<StoredText>, fenceList: Option<Payload>,
                            settings: Option<nat>, writeOk: bool)
    requires WithinCap(stored, ConfiguredCount(settings))
    ensures WithinCap(StoreAfter(stored, fenceList, settings, writeOk), ConfiguredCount(settings))
  {
  }

  /**
   * Running the update twice with the same list and settings caches the same
   * sublist and registers the same records both times; the second run first
   * removes the ids cached by the first, which (when they can be read) are the
   * ids of exactly the fences the first run registered.
   */
  lemma UpdateTwiceIsIdempotent(stored: Option<StoredText>, p: Payload,
                                settings: Option<nat>, hasListener: bool)
    ensures var first := StoreAfter(stored, Some(p), settings, true);
      var sub := SubList(p, ConfiguredCount(settings));
      && first == Some(Json(sub))
      && StoreAfter(first, Some(p), settings, true) == first
      && ExecuteEvents(first, Some(p), settings, hasListener)
           == [Remove(IdList(sub))] + AddEvents(Some(p), settings, hasListener)
      && ExecuteEvents(stored, Some(p), settings, hasListener)
           [|ExecuteEvents(stored, Some(p), settings, hasListener)| - |AddEvents(Some(p), settings, hasListener)|..]
           == AddEvents(Some(p), settings, hasListener)
      && (IdList(sub).Some? ==> IdList(sub).value == FenceIds(Parsed(sub)))
  {
    var sub := SubList(p, ConfiguredCount(settings));
    if sub.geofences.Some? {
      IdListNamesParsedFences(sub.geofences.value);
    }
  }

  /**
   * After a successful run, a reboot (no new list) re-adds and re-caches
   * exactly what that run cached and registered, and removes nothing.
   */
  lemma RebootRestoresLastUpdate(stored: Option<StoredText>, p: Payload,
                                 settings: Option<nat>, hasListener: bool)
    ensures var first := StoreAfter(stored, Some(p), settings, true);
      && ExecuteEvents(first, None, settings, hasListener) == AddEvents(Some(p), settings, hasListener)
      && StoreAfter(first, None, settings, true) == first
  {
    SubListIdempotent(p, ConfiguredCount(settings));
  }

  /** The collaborators of the task: cache file, Google geofence adapter, settings. */
  class Device {
    /** The cache file; `None` when it does not exist. */
    var store: Option<StoredText>
    /** Calls made on the adapter, the file store and the listener, oldest first. */
    var trace: seq<Event>
    /** The configured monitoring count; `None` when no settings were given. */
    var settings: Option<nat>

    constructor (store: Option<StoredText>, settings: Option<nat>)
      ensures this.store == store && this.settings == settings && trace == []
    {
      this.store := store;
      this.settings := settings;
      trace := [];
    }

    /** `removeAllGeofence`; its success callback runs when this returns. */
    method RemoveAllGeofence(ids: Option<seq<string>>)
      modifies this`trace
      ensures trace == old(trace) + [Remove(ids)]
    {
      trace := trace + [Remove(ids)];
    }

    /** `FileUtils.writeJsonToFile`: overwrites the cache when the write succeeds. */
    method WriteJsonToFile(p: Payload, succeeds: bool) returns (written: bool)
      modifies this`trace, this`store
      ensures trace == old(trace) + [Write(p)]
      ensures written == succeeds
      ensures store == if succeeds then Some(Json(p)) else old(store)
    {
      trace := trace + [Write(p)];
      if succeeds {
        store := Some(Json(p));
      }
      written := succeeds;
    }

    /** `addAllGeofence`; its success callback runs when this returns. */
    method AddAllGeofence(fences: seq<Fence>)
      modifies this`trace
      ensures trace == old(trace) + [Add(fences)]
    {
      trace := trace + [Add(fences)];
    }

    /** The listener's `onComplete`. */
    method NotifyComplete()
      modifies this`trace
      ensures trace == old(trace) + [Complete]
    {
      trace := trace + [Complete];
    }
  }

  class GeofenceUpdateTask {
    const device: Device
    /** The new list from the server; `None` on the reboot path. */
    const fenceList: Option<Payload>
    /** Whether an `OnCompleteListener` is set. */
    var hasListener: bool

    constructor (device: Device, fenceList: Option<Payload>)
      ensures this.device == device && this.fenceList == fenceList && !hasListener
    {
      this.device := device;
      this.fenceList := fenceList;
      hasListener := false;
    }

    /** `setOnCompleteListener`: changes the listener and nothing else. */
    method SetOnCompleteListener(present: bool)
      modifies this`hasListener
      ensures hasListener == present
    {
      hasListener := present;
    }

    /**
     * `execute`. `writeOk` is whether the file write succeeds, which the task
     * does not control.
     */
    method Execute(writeOk: bool)
      modifies device
      ensures device.settings == old(device.settings)
      ensures device.trace == old(device.trace)
                + ExecuteEvents(old(device.store), fenceList, device.settings, hasListener)
      ensures device.store == StoreAfter(old(device.store), fenceList, device.settings, writeOk)
    {
      var oldFenceListString := device.store;
      ExecuteEventsSplit(oldFenceListString, fenceList, device.settings, hasListener);
      if !IsBlank(oldFenceListString) {
        var oldIds: Option<seq<string>> := None;
        var oldObject: Option<Payload> := None;
        match oldFenceListString.value {
          case Raw(_) =>
          case Json(p) =>
            oldObject := Some(p);
            oldIds := IdList(p);
        }
        if fenceList.Some? {
          device.RemoveAllGeofence(oldIds);
          // the removal's success callback, on the same thread
          AddGeofences(fenceList, writeOk);
        } else {
          // reboot: add back the cached fences
          AddGeofences(oldObject, writeOk);
        }
      } else {
        AddGeofences(fenceList, writeOk);
      }
    }

    /** `addGeofences`: cap, take the sublist, cache it, register it, then complete. */
    method AddGeofences(geofenceObject: Option<Payload>, writeOk: bool)
      modifies device
      ensures device.settings == old(device.settings)
      ensures device.trace == old(device.trace) + AddEvents(geofenceObject, device.settings, hasListener)
      ensures device.store == if geofenceObject.Some? && writeOk
                              then Some(Json(SubList(geofenceObject.value, ConfiguredCount(device.settings))))
                              else old(device.store)
    {
      if geofenceObject.None? {
        return;
      }
      var monitoringCount: nat := DefaultGeoMonitorCount;
      if device.settings.Some? {
        monitoringCount := device.settings.value;
      }
      var fenceSubList := EmptyObject;
      if geofenceObject.value.geofences.Some? {
        var entries := geofenceObject.value.geofences.value;
        if monitoringCount > |entries| {
          monitoringCount := |entries|;
        }
        fenceSubList := Payload(Some(entries[..monitoringCount]));
      }
      assert fenceSubList == SubList(geofenceObject.value, ConfiguredCount(device.settings));
      var _ := device.WriteJsonToFile(fenceSubList, writeOk);
      var fences := From(fenceSubList);
      device.AddAllGeofence(fences);
      // the add's success callback
      if hasListener {
        device.NotifyComplete();
      }
    }
  }
}
