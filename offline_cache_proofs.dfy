/**
 * Properties of the offline store: what a run of saves leaves in the store,
 * the save/load round trips of the app and tab bundles, the independence of
 * the key families, and the notification discipline of the monitor.
 */
module OfflineCacheProofs {
  import opened Outcomes
  import opened Text
  import opened OfflineCache

  /** After a run of saves over distinct keys with no rejection, each key holds its own value. */
  lemma {:induction false} PutEachStores(store: Store, keys: seq<string>, vals: seq<Value>, now: int, faults: set<string>)
    requires |keys| == |vals| && Distinct(keys)
    requires PutEach(store, keys, vals, now, faults).ok
    ensures forall i | 0 <= i < |keys| ::
      var w := PutEach(store, keys, vals, now, faults);
      keys[i] in w.store && w.store[keys[i]] == Record(keys[i], vals[i], now)
    decreases |keys|
  {
    if keys != [] {
      var next := store[keys[0] := Record(keys[0], vals[0], now)];
      assert Distinct(keys[1..]) by {
        forall i, j | 0 <= i < j < |keys[1..]| ensures keys[1..][i] != keys[1..][j] {
          assert keys[1..][i] == keys[i + 1] && keys[1..][j] == keys[j + 1];
        }
      }
      PutEachStores(next, keys[1..], vals[1..], now, faults);
      assert keys[0] !in keys[1..] by {
        forall i | 0 <= i < |keys[1..]| ensures keys[1..][i] != keys[0] {
          assert keys[1..][i] == keys[i + 1];
        }
      }
      forall i | 0 <= i < |keys|
        ensures var w := PutEach(store, keys, vals, now, faults);
                keys[i] in w.store && w.store[keys[i]] == Record(keys[i], vals[i], now)
      {
        if i > 0 {
          assert keys[i] == keys[1..][i - 1] && vals[i] == vals[1..][i - 1];
        }
      }
    }
  }

  /**
   * A run of saves that meets its first rejection at index `j` has written
   * exactly the keys before `j`, in order, and left the key at `j` and every
   * later key as it was.
   */
  lemma {:induction false} PutEachStopsAt(store: Store, keys: seq<string>, vals: seq<Value>, now: int, faults: set<string>, j: nat)
    requires |keys| == |vals| && Distinct(keys)
    requires j < |keys| && keys[j] in faults
    requires forall i | 0 <= i < j :: keys[i] !in faults
    ensures !PutEach(store, keys, vals, now, faults).ok
    ensures forall i | 0 <= i < j ::
      var w := PutEach(store, keys, vals, now, faults);
      keys[i] in w.store && w.store[keys[i]] == Record(keys[i], vals[i], now)
    ensures forall i | j <= i < |keys| :: SameAt(store, PutEach(store, keys, vals, now, faults).store, keys[i])
    decreases |keys|
  {
    if j > 0 {
      var next := store[keys[0] := Record(keys[0], vals[0], now)];
      assert Distinct(keys[1..]) by {
        forall a, b | 0 <= a < b < |keys[1..]| ensures keys[1..][a] != keys[1..][b] {
          assert keys[1..][a] == keys[a + 1] && keys[1..][b] == keys[b + 1];
        }
      }
      assert forall i | 0 <= i < j - 1 :: keys[1..][i] !in faults by {
        forall i | 0 <= i < j - 1 ensures keys[1..][i] !in faults {
          assert keys[1..][i] == keys[i + 1];
        }
      }
      PutEachStopsAt(next, keys[1..], vals[1..], now, faults, j - 1);
      var w := PutEach(store, keys, vals, now, faults);
      assert w == PutEach(next, keys[1..], vals[1..], now, faults);
      forall i | 0 <= i < j ensures keys[i] in w.store && w.store[keys[i]] == Record(keys[i], vals[i], now) {
        if i > 0 {
          assert keys[i] == keys[1..][i - 1] && vals[i] == vals[1..][i - 1];
        } else {
          assert keys[0] !in keys[1..] by {
            forall b | 0 <= b < |keys[1..]| ensures keys[1..][b] != keys[0] {
              assert keys[1..][b] == keys[b + 1];
            }
          }
          assert SameAt(next, w.store, keys[0]);
        }
      }
      forall i | j <= i < |keys| ensures SameAt(store, w.store, keys[i]) {
        assert keys[i] == keys[1..][i - 1];
        assert keys[i] != keys[0];
      }
    }
  }

  lemma AppKeysDistinct()
    ensures Distinct(AppKeys) && METADATA_KEY !in AppKeys
  {
  }

  /** A store holding each field of a bundle under its key loads as that bundle, if its items are usable. */
  lemma SnapshotOfStoredBundle(store: Store, data: AppData)
    requires forall i | 0 <= i < |AppKeys| :: Lookup(store, AppKeys[i]) == AppValues(data)[i]
    ensures Snapshot(store) == if Usable(data.items) then Some(data) else None
  {
    var vs := AppValues(data);
    assert Lookup(store, "settings") == data.settings by { assert AppKeys[0] == "settings" && vs[0] == data.settings; }
    assert Lookup(store, "headers") == data.headers by { assert AppKeys[1] == "headers" && vs[1] == data.headers; }
    assert Lookup(store, "items") == data.items by { assert AppKeys[2] == "items" && vs[2] == data.items; }
    assert Lookup(store, "columnConfig") == data.columnConfig by { assert AppKeys[3] == "columnConfig" && vs[3] == data.columnConfig; }
    assert Lookup(store, "layerConfig") == data.layerConfig by { assert AppKeys[4] == "layerConfig" && vs[4] == data.layerConfig; }
    assert Lookup(store, "layersData") == data.layersData by { assert AppKeys[5] == "layersData" && vs[5] == data.layersData; }
    assert Lookup(store, "tabsConfig") == data.tabsConfig by { assert AppKeys[6] == "tabsConfig" && vs[6] == data.tabsConfig; }
    assert Lookup(store, "user") == data.user by { assert AppKeys[7] == "user" && vs[7] == data.user; }
  }

  /**
   * Round trip of `saveAppData` and `loadAppData`: once all eight data saves
   * succeed, the stored bundle reads back as the one saved when its items
   * are usable, and as nothing when they are not (an empty list, say), with
   * or without the metadata record written after it.
   */
  lemma AppDataRoundTrip(store: Store, data: AppData, now: int, faults: set<string>)
    requires PutEach(store, AppKeys, AppValues(data), now, faults).ok
    ensures var w := PutEach(store, AppKeys, AppValues(data), now, faults);
      var expected := if Usable(data.items) then Some(data) else None;
      && Snapshot(w.store) == expected
      && Snapshot(w.store[METADATA_KEY := Record(METADATA_KEY, Meta(now, METADATA_VERSION), now)]) == expected
  {
    var w := StoredBundle(store, data, now, faults);
    SnapshotOfStoredBundle(w.store, data);
    MetadataKeepsSnapshot(w.store, now);
  }

  /** Writing the metadata record leaves the app bundle as it loads. */
  lemma MetadataKeepsSnapshot(s: Store, now: int)
    ensures Snapshot(s[METADATA_KEY := Record(METADATA_KEY, Meta(now, METADATA_VERSION), now)]) == Snapshot(s)
  {
    var s2 := s[METADATA_KEY := Record(METADATA_KEY, Meta(now, METADATA_VERSION), now)];
    forall k | k in AppKeys ensures SameAt(s, s2, k) {
    }
    SnapshotFrame(s, s2);
  }

  /** After a successful run of the eight data saves, each app key holds its field. */
  lemma StoredBundle(store: Store, data: AppData, now: int, faults: set<string>) returns (w: Written)
    requires PutEach(store, AppKeys, AppValues(data), now, faults).ok
    ensures w == PutEach(store, AppKeys, AppValues(data), now, faults)
    ensures forall i | 0 <= i < |AppKeys| :: Lookup(w.store, AppKeys[i]) == AppValues(data)[i]
  {
    AppKeysDistinct();
    PutEachStores(store, AppKeys, AppValues(data), now, faults);
    w := PutEach(store, AppKeys, AppValues(data), now, faults);
  }

  /** `tab_<n>_<f>` determines both the tab index and the field. */
  lemma TabKeyInjective(n: int, f: string, m: int, g: string)
    requires TabKey(n, f) == TabKey(m, g)
    ensures n == m && f == g
  {
    var a, b := IntToString(n), IntToString(m);
    assert TabKey(n, f)[4..] == a + ("_" + f);
    assert TabKey(m, g)[4..] == b + ("_" + g);
    SplitAtUnderscore(a, "_" + f, b, "_" + g);
    IntToStringInjective(n, m);
    assert f == ("_" + f)[1..] == ("_" + g)[1..] == g;
  }

  /** A tab key is neither one of the app bundle's keys nor the metadata key. */
  lemma TabKeyNotAppKey(n: int, f: string)
    ensures TabKey(n, f) !in AppKeys && TabKey(n, f) != METADATA_KEY
  {
    var k := TabKey(n, f);
    assert k[..4] == "tab_";
    assert k[3] == '_';
  }

  lemma TabKeysDistinct(n: int)
    ensures Distinct(TabKeys(n))
  {
    forall i, j | 0 <= i < j < |TabFields| ensures TabKeys(n)[i] != TabKeys(n)[j] {
      if TabKeys(n)[i] == TabKeys(n)[j] {
        TabKeyInjective(n, TabFields[i], n, TabFields[j]);
      }
    }
  }

  /** Round trip of `saveTabData(n, …)` and `loadTabData(n)`: an empty but truthy items list still loads. */
  lemma TabDataRoundTrip(store: Store, n: int, data: TabData, now: int, faults: set<string>)
    requires PutEach(store, TabKeys(n), TabValues(data), now, faults).ok
    requires Truthy(data.items)
    ensures TabSnapshot(PutEach(store, TabKeys(n), TabValues(data), now, faults).store, n) == Some(data)
  {
    TabKeysDistinct(n);
    PutEachStores(store, TabKeys(n), TabValues(data), now, faults);
    var w := PutEach(store, TabKeys(n), TabValues(data), now, faults);
    assert forall i | 0 <= i < 4 :: Lookup(w.store, TabKeys(n)[i]) == TabValues(data)[i];
    assert Lookup(w.store, TabKey(n, "items")) == data.items by {
      assert TabKeys(n)[0] == TabKey(n, "items");
    }
    assert TabValues(TabSnapshot(w.store, n).value) == TabValues(data);
  }

  /** Two stores that agree on the app keys load the same app bundle. */
  lemma SnapshotFrame(s: Store, t: Store)
    requires forall k | k in AppKeys :: SameAt(s, t, k)
    ensures Snapshot(s) == Snapshot(t)
  {
    assert SameAt(s, t, "settings") by { assert AppKeys[0] == "settings"; }
    assert SameAt(s, t, "headers") by { assert AppKeys[1] == "headers"; }
    assert SameAt(s, t, "items") by { assert AppKeys[2] == "items"; }
    assert SameAt(s, t, "columnConfig") by { assert AppKeys[3] == "columnConfig"; }
    assert SameAt(s, t, "layerConfig") by { assert AppKeys[4] == "layerConfig"; }
    assert SameAt(s, t, "layersData") by { assert AppKeys[5] == "layersData"; }
    assert SameAt(s, t, "tabsConfig") by { assert AppKeys[6] == "tabsConfig"; }
    assert SameAt(s, t, "user") by { assert AppKeys[7] == "user"; }
  }

  /** Two stores that agree on the `tab_<n>_*` keys load the same bundle for tab n. */
  lemma TabSnapshotFrame(s: Store, t: Store, n: int)
    requires forall i | 0 <= i < |TabFields| :: SameAt(s, t, TabKey(n, TabFields[i]))
    ensures TabSnapshot(s, n) == TabSnapshot(t, n)
  {
    assert SameAt(s, t, TabKey(n, "items")) by { assert TabFields[0] == "items"; }
    assert SameAt(s, t, TabKey(n, "columnConfig")) by { assert TabFields[1] == "columnConfig"; }
    assert SameAt(s, t, TabKey(n, "layerConfig")) by { assert TabFields[2] == "layerConfig"; }
    assert SameAt(s, t, TabKey(n, "layersData")) by { assert TabFields[3] == "layersData"; }
  }

  /**
   * `saveTabData(n, …)` touches only the `tab_<n>_*` keys: whatever it
   * writes, the app bundle, the metadata and every other tab's bundle load
   * as before.
   */
  lemma TabSaveIsolation(store: Store, n: int, data: TabData, now: int, faults: set<string>, m: int)
    requires m != n
    ensures var w := PutEach(store, TabKeys(n), TabValues(data), now, faults);
      && Snapshot(w.store) == Snapshot(store)
      && TabSnapshot(w.store, m) == TabSnapshot(store, m)
      && SameAt(store, w.store, METADATA_KEY)
  {
    var w := PutEach(store, TabKeys(n), TabValues(data), now, faults);
    forall k | k in AppKeys || k == METADATA_KEY ensures SameAt(store, w.store, k) {
      forall i | 0 <= i < |TabFields| ensures TabKeys(n)[i] != k {
        TabKeyNotAppKey(n, TabFields[i]);
      }
    }
    SnapshotFrame(store, w.store);
    forall i | 0 <= i < |TabFields| ensures SameAt(store, w.store, TabKey(m, TabFields[i])) {
      forall j | 0 <= j < |TabFields| ensures TabKeys(n)[j] != TabKey(m, TabFields[i]) {
        if TabKey(n, TabFields[j]) == TabKey(m, TabFields[i]) {
          TabKeyInjective(n, TabFields[j], m, TabFields[i]);
        }
      }
    }
    TabSnapshotFrame(store, w.store, m);
  }

  /** `saveAppData` never touches a tab bundle: neither its eight data saves nor its `_metadata` save. */
  lemma AppSaveKeepsTabs(store: Store, data: AppData, now: int, faults: set<string>, n: int)
    ensures var w := PutEach(store, AppKeys, AppValues(data), now, faults);
      && TabSnapshot(w.store, n) == TabSnapshot(store, n)
      && TabSnapshot(w.store[METADATA_KEY := Record(METADATA_KEY, Meta(now, METADATA_VERSION), now)], n)
         == TabSnapshot(store, n)
  {
    var w := PutEach(store, AppKeys, AppValues(data), now, faults);
    var m := w.store[METADATA_KEY := Record(METADATA_KEY, Meta(now, METADATA_VERSION), now)];
    forall i | 0 <= i < |TabFields|
      ensures SameAt(store, w.store, TabKey(n, TabFields[i])) && SameAt(store, m, TabKey(n, TabFields[i]))
    {
      TabKeyNotAppKey(n, TabFields[i]);
    }
    TabSnapshotFrame(store, w.store, n);
    TabSnapshotFrame(store, m, n);
  }

  /**
   * `hasCache` and `loadAppData` agree on arrays and strings; a truthy items
   * value without a length (a number, say) loads but does not count as a
   * cache, and so does an object whose `length` is negative.
   */
  lemma HasCacheAgreesWithLoad(items: Value)
    ensures HasItems(items) ==> Usable(items)
    ensures (items.Arr? || items.Str?) ==> (HasItems(items) <==> Usable(items))
    ensures Usable(Num(1)) && !HasItems(Num(1))
    ensures Usable(Obj(0, Some(-1))) && !HasItems(Obj(0, Some(-1)))
    ensures !Usable(Obj(0, Some(0))) && HasItems(Obj(0, Some(2)))
  {
  }

  /**
   * Recording the signals of a run one at a time, as `_handleOnlineStatus`
   * does, ends in `FinalStatus`: after the first signal the state is that
   * signal, and the rest of the run continues from it.
   */
  lemma {:induction false} FinalStatusSteps(isOnline: bool, signals: seq<bool>)
    ensures signals == [] ==> FinalStatus(isOnline, signals) == isOnline
    ensures signals != [] ==> FinalStatus(isOnline, signals) == FinalStatus(signals[0], signals[1..])
  {
  }

  /** The observer is called at most once per signal, and never when the slot is empty. */
  lemma {:induction false} NotificationsBound(isOnline: bool, observer: bool, signals: seq<bool>)
    ensures |Notifications(isOnline, observer, signals)| <= |signals|
    ensures !observer ==> Notifications(isOnline, observer, signals) == []
    decreases |signals|
  {
    if signals != [] {
      NotificationsBound(signals[0], observer, signals[1..]);
    }
  }

  /** Notifications for consecutive runs of signals concatenate. */
  lemma {:induction false} NotificationsAppend(isOnline: bool, observer: bool, s: seq<bool>, t: seq<bool>)
    ensures Notifications(isOnline, observer, s + t)
         == Notifications(isOnline, observer, s) + Notifications(FinalStatus(isOnline, s), observer, t)
    decreases |s|
  {
    if s == [] {
      assert s + t == t;
    } else {
      var head := if observer && isOnline != s[0] then [s[0]] else [];
      var u := s + t;
      assert u[0] == s[0] && u[1..] == s[1..] + t;
      NotificationsAppend(s[0], observer, s[1..], t);
      assert FinalStatus(s[0], s[1..]) == FinalStatus(isOnline, s);
      calc {
        Notifications(isOnline, observer, u);
        head + Notifications(s[0], observer, s[1..] + t);
        head + (Notifications(s[0], observer, s[1..]) + Notifications(FinalStatus(isOnline, s), observer, t));
        (head + Notifications(s[0], observer, s[1..])) + Notifications(FinalStatus(isOnline, s), observer, t);
      }
    }
  }

  /** No two neighbouring elements of `r` are equal. */
  predicate Alternates(r: seq<bool>) {
    forall i | 0 <= i < |r| - 1 :: r[i] != r[i + 1]
  }

  /** Putting in front of an alternating run a value that differs from its first keeps it alternating. */
  lemma ConsAlternates(x: bool, rest: seq<bool>)
    requires Alternates(rest) && (|rest| > 0 ==> rest[0] != x)
    ensures Alternates([x] + rest)
  {
    var r := [x] + rest;
    forall i | 0 <= i < |r| - 1 ensures r[i] != r[i + 1] {
      if i == 0 {
        assert r[1] == rest[0];
      } else {
        assert r[i] == rest[i - 1] && r[i + 1] == rest[i];
      }
    }
  }

  /** The alternation half of NotificationsAlternate. */
  lemma {:induction false} NotificationsNoRepeat(isOnline: bool, observer: bool, signals: seq<bool>)
    ensures var r := Notifications(isOnline, observer, signals);
      Alternates(r) && (|r| > 0 ==> r[0] != isOnline) && (!observer ==> r == [])
    decreases |signals|
  {
    if signals != [] {
      var x := signals[0];
      var rest := Notifications(x, observer, signals[1..]);
      NotificationsNoRepeat(x, observer, signals[1..]);
      if observer && isOnline != x {
        ConsAlternates(x, rest);
      }
    }
  }

  /** The last call reports the state the run ends in. */
  lemma {:induction false} NotificationsLast(isOnline: bool, signals: seq<bool>)
    ensures var r := Notifications(isOnline, true, signals);
      (if r == [] then isOnline else r[|r| - 1]) == FinalStatus(isOnline, signals)
    decreases |signals|
  {
    if signals != [] {
      var x := signals[0];
      var rest := Notifications(x, true, signals[1..]);
      NotificationsLast(x, signals[1..]);
      assert FinalStatus(x, signals[1..]) == FinalStatus(isOnline, signals);
      if isOnline != x {
        var r := [x] + rest;
        assert r[|r| - 1] == if rest == [] then x else rest[|rest| - 1];
      }
    }
  }

  /**
   * For any run of platform signals, duplicates included, the observer is
   * never called twice in a row with the same state; its first call reports
   * a change from the starting state and its last call the final state; an
   * empty slot is never called.
   */
  lemma NotificationsAlternate(isOnline: bool, observer: bool, signals: seq<bool>)
    ensures var r := Notifications(isOnline, observer, signals);
      && (forall i | 0 <= i < |r| - 1 :: r[i] != r[i + 1])
      && (|r| > 0 ==> r[0] != isOnline)
      && (observer ==> (if r == [] then isOnline else r[|r| - 1]) == FinalStatus(isOnline, signals))
      && (!observer ==> r == [])
  {
    NotificationsNoRepeat(isOnline, observer, signals);
    if observer {
      NotificationsLast(isOnline, signals);
    }
  }
}
