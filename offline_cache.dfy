/**
 * The persistent key/record store of the catalogue app (`OfflineCacheService`)
 * and its online/offline monitor.
 *
 * The IndexedDB object store `appData` (key path `key`) is a map from key to
 * record. Whether a request against it fails is an input: `faults` is the set
 * of keys whose put or get request the storage rejects during the call.
 * Clock readings are integer milliseconds passed in by the caller.
 */
module OfflineCache {
  import opened Outcomes
  import opened Text

  /**
   * The JavaScript values the app stores as record payloads. IndexedDB hands
   * back a structured clone of what was saved, so an object read back is
   * equal in content, not identical, to the one saved: `Obj(id, len)` stands
   * for that content, `len` being its own numeric `length` property, if any.
   */
  datatype Value =
    | Undefined
    | Null
    | Bool(b: bool)
    | Num(n: int)
    | Str(s: string)
    | Arr(elems: seq<Value>)
    | Obj(id: nat, len: Option<int>)        // another object's content: equal ids, structurally equal clones
    | Meta(lastUpdated: int, version: int)  // the `_metadata` object

  /** JavaScript truthiness (`!v` is false). Arrays and objects, the metadata record included, are always truthy. */
  predicate Truthy(v: Value)
    ensures !Truthy(v) <==> v == Undefined || v == Null || v == Bool(false) || v == Num(0) || v == Str("")
  {
    match v
    case Undefined => false
    case Null => false
    case Bool(b) => b
    case Num(n) => n != 0
    case Str(s) => s != ""
    case _ => true
  }

  /**
   * `v.length`: the length of an array or a string, an object's own numeric
   * `length` property, `undefined` for anything else.
   */
  function Length(v: Value): (r: Option<int>)
    ensures r.Some? <==> v.Arr? || v.Str? || (v.Obj? && v.len.Some?)
    ensures v.Arr? ==> r == Some(|v.elems|)
    ensures v.Str? ==> r == Some(|v.s|)
    ensures v.Obj? ==> r == v.len
  {
    match v
    case Arr(e) => Some(|e|)
    case Str(s) => Some(|s|)
    case Obj(_, len) => len
    case _ => None
  }

  /** One record of the object store: `{key, data, timestamp}`. */
  datatype Record = Record(key: string, data: Value, timestamp: int)

  type Store = map<string, Record>

  /** The object store's key path: every record sits under its own `key`. */
  predicate KeyPathHolds(store: Store) {
    forall k | k in store :: store[k].key == k
  }

  /** Key `k` holds the same record (or none) in both stores. */
  predicate SameAt(s: Store, t: Store, k: string) {
    (k in s <==> k in t) && (k in s ==> s[k] == t[k])
  }

  const METADATA_KEY := "_metadata"
  const METADATA_VERSION := 1

  /** The keys `saveAppData` writes, in the order it writes them. */
  const AppKeys: seq<string> :=
    ["settings", "headers", "items", "columnConfig", "layerConfig", "layersData", "tabsConfig", "user"]

  /** The bundle `saveAppData` takes and `loadAppData` returns. */
  datatype AppData = AppData(
    settings: Value, headers: Value, items: Value, columnConfig: Value,
    layerConfig: Value, layersData: Value, tabsConfig: Value, user: Value)

  /** The bundle's fields in the order of AppKeys. */
  function AppValues(d: AppData): (vs: seq<Value>)
    ensures |vs| == |AppKeys|
  {
    [d.settings, d.headers, d.items, d.columnConfig, d.layerConfig, d.layersData, d.tabsConfig, d.user]
  }

  /** The per-tab bundle of `saveTabData` and `loadTabData`. */
  datatype TabData = TabData(items: Value, columnConfig: Value, layerConfig: Value, layersData: Value)

  /** The key `tab_<n>_<field>`. */
  function TabKey(n: int, field: string): string {
    "tab_" + IntToString(n) + "_" + field
  }

  /** The fields of a tab bundle, in the order `saveTabData` writes them. */
  const TabFields: seq<string> := ["items", "columnConfig", "layerConfig", "layersData"]

  /** The keys `saveTabData(n, …)` writes, in order. */
  function TabKeys(n: int): (ks: seq<string>)
    ensures |ks| == |TabFields|
    ensures forall i | 0 <= i < |TabFields| :: ks[i] == TabKey(n, TabFields[i])
  {
    seq(|TabFields|, i requires 0 <= i < |TabFields| => TabKey(n, TabFields[i]))
  }

  function TabValues(d: TabData): (vs: seq<Value>)
    ensures |vs| == 4
  {
    [d.items, d.columnConfig, d.layerConfig, d.layersData]
  }

  /** The payload a successful `get` request yields: the record's data, or null without a record. */
  function Lookup(store: Store, key: string): Value {
    if key in store then store[key].data else Null
  }

  /** The outcome of a run of sequential `save` calls: the store afterwards, and whether none rejected. */
  datatype Written = Written(store: Store, ok: bool)

  /**
   * Awaits `save(keys[i], vals[i])` for each i in order; the first rejected
   * put ends the run (the caller's `try` catches it), so later keys are not
   * written.
   */
  function PutEach(store: Store, keys: seq<string>, vals: seq<Value>, now: int, faults: set<string>): (w: Written)
    requires |keys| == |vals|
    ensures w.ok <==> forall k | k in keys :: k !in faults
    ensures forall k | k !in keys :: SameAt(store, w.store, k)
    ensures w.store.Keys <= store.Keys + set k | k in keys
    ensures KeyPathHolds(store) ==> KeyPathHolds(w.store)
    decreases |keys|
  {
    if keys == [] then Written(store, true)
    else if keys[0] in faults then Written(store, false)
    else
      assert forall k | k !in keys :: k != keys[0] && k !in keys[1..];
      PutEach(store[keys[0] := Record(keys[0], vals[0], now)], keys[1..], vals[1..], now, faults)
  }

  /** The run of saves from position `i` on, after a successful save at `i` or a rejected one. */
  lemma PutEachStep(store: Store, keys: seq<string>, vals: seq<Value>, now: int, faults: set<string>, i: nat)
    requires |keys| == |vals| && i < |keys|
    ensures keys[i] !in faults ==>
              PutEach(store, keys[i..], vals[i..], now, faults)
              == PutEach(store[keys[i] := Record(keys[i], vals[i], now)], keys[i + 1..], vals[i + 1..], now, faults)
    ensures keys[i] in faults ==> PutEach(store, keys[i..], vals[i..], now, faults) == Written(store, false)
  {
    assert keys[i..][0] == keys[i] && vals[i..][0] == vals[i];
    assert keys[i..][1..] == keys[i + 1..] && vals[i..][1..] == vals[i + 1..];
  }

  /** The bundle `loadAppData` needs before it returns one: `items` truthy with a length other than 0. */
  predicate Usable(items: Value)
    ensures Usable(items) <==>
      match items
      case Arr(e) => e != []
      case Str(t) => t != ""
      case Num(n) => n != 0
      case Bool(b) => b
      case Obj(_, len) => len != Some(0)
      case Meta(_, _) => true
      case _ => false
  {
    Truthy(items) && Length(items) != Some(0)
  }

  /** What `hasCache` tests: `items` truthy with a length above 0. */
  predicate HasItems(items: Value)
    ensures HasItems(items) <==>
      (items.Arr? && items.elems != []) || (items.Str? && items.s != "") ||
      (items.Obj? && items.len.Some? && items.len.value > 0)
  {
    Truthy(items) && Length(items).Some? && Length(items).value > 0
  }

  /** The bundle `loadAppData` builds once all eight reads have succeeded. */
  function Snapshot(store: Store): (r: Option<AppData>)
    ensures r.Some? <==> Usable(Lookup(store, "items"))
    ensures r.Some? ==> forall i | 0 <= i < |AppKeys| :: AppValues(r.value)[i] == Lookup(store, AppKeys[i])
  {
    var items := Lookup(store, "items");
    if !Truthy(items) || Length(items) == Some(0) then None
    else Some(AppData(
      Lookup(store, "settings"), Lookup(store, "headers"), items,
      Lookup(store, "columnConfig"), Lookup(store, "layerConfig"), Lookup(store, "layersData"),
      Lookup(store, "tabsConfig"), Lookup(store, "user")))
  }

  /** The bundle `loadTabData(n)` builds once its four reads have succeeded. */
  function TabSnapshot(store: Store, n: int): (r: Option<TabData>)
    ensures r.Some? <==> Truthy(Lookup(store, TabKey(n, "items")))
    ensures r.Some? ==> forall i | 0 <= i < 4 :: TabValues(r.value)[i] == Lookup(store, TabKeys(n)[i])
  {
    var items := Lookup(store, TabKey(n, "items"));
    if !Truthy(items) then None
    else Some(TabData(items, Lookup(store, TabKey(n, "columnConfig")),
                      Lookup(store, TabKey(n, "layerConfig")), Lookup(store, TabKey(n, "layersData"))))
  }

  const MS_PER_MINUTE := 60000
  const MS_PER_HOUR := 3600000
  const MS_PER_DAY := 86400000

  /** The display buckets of `getLastUpdatedFormatted`. */
  datatype Label = Never | JustNow | MinutesAgo(minutes: int) | HoursAgo(hours: int) | DaysAgo(days: int) | OnDate(at: int)

  /**
   * The bucket for the time elapsed since `lastUpdated`. Whole minutes, hours
   * and days are floor divisions of the elapsed milliseconds (Dafny's `/`
   * floors for a positive divisor, as `Math.floor(diff / d)` does); a clock
   * that went backwards gives a negative elapsed time, which reads as "just now".
   */
  function Elapsed(lastUpdated: Option<int>, now: int): (l: Label)
    ensures l == Never <==> lastUpdated.None?
    ensures l == JustNow <==> lastUpdated.Some? && now - lastUpdated.value < MS_PER_MINUTE
    ensures l.MinutesAgo? ==>
              && lastUpdated.Some? && 1 <= l.minutes < 60
              && l.minutes * MS_PER_MINUTE <= now - lastUpdated.value < (l.minutes + 1) * MS_PER_MINUTE
    ensures l.HoursAgo? ==>
              && lastUpdated.Some? && 1 <= l.hours < 24
              && l.hours * MS_PER_HOUR <= now - lastUpdated.value < (l.hours + 1) * MS_PER_HOUR
    ensures l.DaysAgo? ==>
              && lastUpdated.Some? && 1 <= l.days < 7
              && l.days * MS_PER_DAY <= now - lastUpdated.value < (l.days + 1) * MS_PER_DAY
    ensures l.OnDate? <==> lastUpdated.Some? && 7 * MS_PER_DAY <= now - lastUpdated.value
    ensures l.OnDate? ==> l.at == lastUpdated.value
  {
    match lastUpdated
    case None => Never
    case Some(t) =>
      var diff := now - t;
      var minutes := diff / MS_PER_MINUTE;
      var hours := diff / MS_PER_HOUR;
      var days := diff / MS_PER_DAY;
      if minutes < 1 then JustNow
      else if minutes < 60 then MinutesAgo(minutes)
      else if hours < 24 then HoursAgo(hours)
      else if days < 7 then DaysAgo(days)
      else OnDate(t)
  }

  /** The text shown for a label; `localeDate` is what `toLocaleDateString()` gives for an old timestamp. */
  function Render(l: Label, localeDate: string): (s: string)
    ensures l == Never ==> s == "Never"
    ensures l == JustNow ==> s == "Just now"
    ensures l.MinutesAgo? ==> StartsWith(s, IntToString(l.minutes)) && |s| == |IntToString(l.minutes)| + 5 && s[|s| - 5..] == "m ago"
    ensures l.HoursAgo? ==> StartsWith(s, IntToString(l.hours)) && |s| == |IntToString(l.hours)| + 5 && s[|s| - 5..] == "h ago"
    ensures l.DaysAgo? ==> StartsWith(s, IntToString(l.days)) && |s| == |IntToString(l.days)| + 5 && s[|s| - 5..] == "d ago"
    ensures l.OnDate? ==> s == localeDate
  {
    match l
    case Never => "Never"
    case JustNow => "Just now"
    case MinutesAgo(m) => IntToString(m) + "m ago"
    case HoursAgo(h) => IntToString(h) + "h ago"
    case DaysAgo(d) => IntToString(d) + "d ago"
    case OnDate(_) => localeDate
  }

  /**
   * The notifications `_handleOnlineStatus` sends for a run of platform
   * signals, starting from state `isOnline`, while the observer slot stays
   * filled (`observer`) or empty.
   */
  function Notifications(isOnline: bool, observer: bool, signals: seq<bool>): seq<bool>
    decreases |signals|
  {
    if signals == [] then []
    else (if observer && isOnline != signals[0] then [signals[0]] else [])
         + Notifications(signals[0], observer, signals[1..])
  }

  /**
   * The state of the monitor after a run of signals: the last signal, or
   * the starting state when there was none.
   */
  function FinalStatus(isOnline: bool, signals: seq<bool>): bool {
    if signals == [] then isOnline else signals[|signals| - 1]
  }

  /**
   * `OfflineCacheService`. `db` says whether `init` has opened the database
   * (the handle is non-null); `store` is the content of the object store,
   * which outlives the page; `onStatusChange` says whether the single
   * observer slot is filled, and `notified` records the values it was called
   * with.
   */
  class OfflineCacheService {
    var db: bool
    var store: Store
    var isOnline: bool
    var lastUpdated: Option<int>
    var onStatusChange: bool
    var notified: seq<bool>

    /**
     * The object store's key path: every record sits under its own key. It
     * records what IndexedDB guarantees; no result of the service depends
     * on it.
     */
    predicate Valid()
      reads this
    {
      KeyPathHolds(store)
    }

    /** A fresh service: no handle yet, the platform's connectivity, no timestamp, no observer. */
    constructor (online: bool, persisted: Store)
      requires KeyPathHolds(persisted)
      ensures Valid()
      ensures !db && store == persisted && isOnline == online
      ensures lastUpdated == None && !onStatusChange && notified == []
    {
      db := false;
      store := persisted;
      isOnline := online;
      lastUpdated := None;
      onStatusChange := false;
      notified := [];
    }

    /**
     * `init`: opens the database (`openOk` says whether the open request
     * succeeds; a first open creates the empty object store, which the
     * persisted map already is), then reloads the timestamp from `_metadata`.
     */
    method Init(openOk: bool, faults: set<string>) returns (ok: bool)
      requires Valid()
      modifies this`db, this`lastUpdated
      ensures Valid()
      ensures ok == openOk && db == (old(db) || openOk)
      ensures !openOk ==> lastUpdated == old(lastUpdated)
      ensures openOk ==>
                lastUpdated == (if METADATA_KEY !in faults && Lookup(store, METADATA_KEY).Meta?
                                then Some(Lookup(store, METADATA_KEY).lastUpdated) else old(lastUpdated))
    {
      if !openOk {
        return false;
      }
      db := true;
      LoadLastUpdated(faults);
      ok := true;
    }

    /** `_handleOnlineStatus`: always records the new state; notifies only on a real edge. */
    method HandleOnlineStatus(online: bool)
      modifies this`isOnline, this`notified
      ensures isOnline == online
      ensures notified == old(notified) + Notifications(old(isOnline), onStatusChange, [online])
      ensures |notified| == |old(notified)| + (if onStatusChange && old(isOnline) != online then 1 else 0)
      ensures |notified| > |old(notified)| ==> notified[|notified| - 1] == online
    {
      var wasOnline := isOnline;
      isOnline := online;
      if onStatusChange && wasOnline != online {
        notified := notified + [online];
      }
    }

    /** `getOnlineStatus`. */
    function GetOnlineStatus(): (r: bool)
      reads this
      ensures r == isOnline
    {
      isOnline
    }

    /** `_loadLastUpdated`: adopts the stored metadata timestamp; a failed read is ignored. */
    method LoadLastUpdated(faults: set<string>)
      modifies this`lastUpdated
      ensures lastUpdated ==
        (if db && METADATA_KEY !in faults && Lookup(store, METADATA_KEY).Meta?
         then Some(Lookup(store, METADATA_KEY).lastUpdated) else old(lastUpdated))
    {
      var meta := Get(METADATA_KEY, faults);
      if meta.Resolved? && meta.value.Meta? {
        lastUpdated := Some(meta.value.lastUpdated);
      }
    }

    /** `save(key, data)`: without a handle it resolves false and writes nothing. */
    method Save(key: string, data: Value, now: int, faults: set<string>) returns (r: Settled<bool>)
      requires Valid()
      modifies this`store
      ensures Valid()
      ensures !db ==> r == Resolved(false) && store == old(store)
      ensures db && key in faults ==> r == Rejected && store == old(store)
      ensures db && key !in faults ==> r == Resolved(true) && store == old(store)[key := Record(key, data, now)]
    {
      if !db {
        return Resolved(false);
      }
      if key in faults {
        return Rejected;
      }
      store := store[key := Record(key, data, now)];
      r := Resolved(true);
    }

    /** `get(key)`: null without a handle or without a record, never an error for a missing key. */
    function Get(key: string, faults: set<string>): (r: Settled<Value>)
      reads this
      ensures !db ==> r == Resolved(Null)
      ensures db ==> (r.Rejected? <==> key in faults)
      ensures r.Resolved? && key !in store ==> r.value == Null
      ensures r.Resolved? && db && key in store ==> r.value == store[key].data
    {
      if !db then Resolved(Null)
      else if key in faults then Rejected
      else Resolved(Lookup(store, key))
    }

    /**
     * A run of awaited saves, `save(keys[i], vals[i])` in order; the first
     * rejected save ends the run with false (the caller's `catch`). A save
     * without a handle resolves false, which does not end the run.
     */
    method SaveRun(keys: seq<string>, vals: seq<Value>, now: int, faults: set<string>) returns (ok: bool)
      requires Valid() && |keys| == |vals|
      modifies this`store
      ensures Valid()
      ensures !db ==> ok && store == old(store)
      ensures db ==> Written(store, ok) == PutEach(old(store), keys, vals, now, faults)
    {
      var i := 0;
      while i < |keys|
        invariant 0 <= i <= |keys| && Valid()
        invariant !db ==> store == old(store)
        invariant db ==> PutEach(old(store), keys, vals, now, faults) == PutEach(store, keys[i..], vals[i..], now, faults)
      {
        PutEachStep(store, keys, vals, now, faults, i);
        var r := Save(keys[i], vals[i], now, faults);
        if r.Rejected? {
          return false;
        }
        i := i + 1;
      }
      ok := true;
    }

    /**
     * `saveAppData`: the eight data keys in order, then the timestamp, then
     * `_metadata`. A rejected save ends the call with false. Without a handle
     * every save resolves false, so the call still stamps the time and
     * returns true.
     */
    method SaveAppData(data: AppData, now: int, faults: set<string>) returns (ok: bool)
      requires Valid()
      modifies this`store, this`lastUpdated
      ensures Valid()
      ensures !db ==> ok && store == old(store) && lastUpdated == Some(now)
      ensures db ==>
        var w := PutEach(old(store), AppKeys, AppValues(data), now, faults);
        && (!w.ok ==> !ok && store == w.store && lastUpdated == old(lastUpdated))
        && (w.ok ==> lastUpdated == Some(now))
        && (w.ok && METADATA_KEY in faults ==> !ok && store == w.store)
        && (w.ok && METADATA_KEY !in faults ==>
              ok && store == w.store[METADATA_KEY := Record(METADATA_KEY, Meta(now, METADATA_VERSION), now)])
    {
      ok := SaveRun(AppKeys, AppValues(data), now, faults);
      if !ok { return false; }
      lastUpdated := Some(now);
      var r := Save(METADATA_KEY, Meta(now, METADATA_VERSION), now, faults);
      if r.Rejected? { return false; }
      ok := true;
    }

    /** `loadAppData`: any rejected read makes the whole call null; otherwise the stored bundle. */
    function LoadAppData(faults: set<string>): (r: Option<AppData>)
      reads this
      ensures r.Some? <==> db && (forall k | k in AppKeys :: k !in faults) && Usable(Lookup(store, "items"))
      ensures r.Some? ==> r == Snapshot(store)
    {
      // Without a handle every read yields null, so `items` is null.
      if !db then None
      // Promise.all rejects with the first rejected read; the catch returns null.
      else if exists k | k in AppKeys :: k in faults then None
      else Snapshot(store)
    }

    /** `saveTabData(n, …)`: the four `tab_<n>_*` keys in order; a rejected save returns false. */
    method SaveTabData(n: int, data: TabData, now: int, faults: set<string>) returns (ok: bool)
      requires Valid()
      modifies this`store
      ensures Valid()
      ensures !db ==> ok && store == old(store)
      ensures db ==>
        var w := PutEach(old(store), TabKeys(n), TabValues(data), now, faults);
        ok == w.ok && store == w.store
    {
      ok := SaveRun(TabKeys(n), TabValues(data), now, faults);
    }

    /** `loadTabData(n)`: null when a read rejects or `tab_<n>_items` is falsy; an empty list still loads. */
    function LoadTabData(n: int, faults: set<string>): (r: Option<TabData>)
      reads this
      ensures r.Some? <==> db && (forall k | k in TabKeys(n) :: k !in faults) && Truthy(Lookup(store, TabKey(n, "items")))
      ensures r.Some? ==> r == TabSnapshot(store, n)
    {
      if !db then None
      else if exists k | k in TabKeys(n) :: k in faults then None
      else TabSnapshot(store, n)
    }

    /** `hasCache`: whether stored `items` is truthy and non-empty; a rejected read rejects. */
    function HasCache(faults: set<string>): (r: Settled<bool>)
      reads this
      ensures r.Rejected? <==> db && "items" in faults
      ensures r.Resolved? ==> (r.value <==> db && HasItems(Lookup(store, "items")))
    {
      var items := Get("items", faults);
      match items
      case Rejected => Rejected
      case Resolved(v) => Resolved(Truthy(v) && Length(v).Some? && Length(v).value > 0)
    }

    /** `clearCache`: false without a handle; on success the store is empty and the timestamp gone. */
    method ClearCache(storageOk: bool) returns (r: Settled<bool>)
      requires Valid()
      modifies this`store, this`lastUpdated
      ensures Valid()
      ensures !db ==> r == Resolved(false) && store == old(store) && lastUpdated == old(lastUpdated)
      ensures db && !storageOk ==> r == Rejected && store == old(store) && lastUpdated == old(lastUpdated)
      ensures db && storageOk ==> r == Resolved(true) && store == map[] && lastUpdated == None
      ensures r == Resolved(true) ==>
        LoadAppData({}) == None && HasCache({}) == Resolved(false) && GetLastUpdatedFormatted(0, "") == "Never"
    {
      if !db {
        return Resolved(false);
      }
      if !storageOk {
        return Rejected;
      }
      store := map[];
      lastUpdated := None;
      r := Resolved(true);
    }

    /** `getLastUpdatedFormatted` at time `now`; `localeDate` stands for `toLocaleDateString()`. */
    function GetLastUpdatedFormatted(now: int, localeDate: string): (s: string)
      reads this
      ensures lastUpdated.None? ==> s == "Never"
      ensures lastUpdated.Some? && now - lastUpdated.value < MS_PER_MINUTE ==> s == "Just now"
      ensures lastUpdated.Some? && 7 * MS_PER_DAY <= now - lastUpdated.value ==> s == localeDate
    {
      Render(Elapsed(lastUpdated, now), localeDate)
    }
  }
}
