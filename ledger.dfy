/**
 * The timer ledger: `timers` maps a running key to the time it started and
 * `logs` maps a key to the milliseconds accumulated over its finished runs
 * (src/App.js:24-25, 85-146, 189-193). Times are milliseconds since the epoch,
 * passed in as `now`.
 */
module TimerLedger {
  import opened Config

  type Timers = map<string, nat>
  type Logs = map<string, nat>

  datatype Snapshot = Snapshot(timers: Timers, logs: Logs)

  /** `l[k] || 0`. */
  function LogOf(l: Logs, k: string): nat
  {
    if k in l then l[k] else 0
  }

  /** No running key started after `now`: the clock does not run backwards. */
  predicate StartedBy(t: Timers, now: nat)
  {
    forall k :: k in t ==> t[k] <= now
  }

  /** Every start time is truthy, so `timers[k]` is a faithful running test. */
  predicate Positive(t: Timers)
  {
    forall k :: k in t ==> t[k] > 0
  }

  /** Two maps agree on key `k` (both lack it, or both hold the same value). */
  predicate SameAt(m1: map<string, nat>, m2: map<string, nat>, k: string)
  {
    (k in m1 <==> k in m2) && (k in m1 ==> m1[k] == m2[k])
  }

  /** The keys of the given conditions of a category. */
  function KeysOf(category: string, conds: seq<string>): set<string>
  {
    set d | d in conds :: Key(category, d)
  }

  /** At most one of the listed conditions of `category` is running. */
  ghost predicate AtMostOne(t: Timers, category: string, conds: seq<string>)
  {
    forall d1, d2 :: d1 in conds && d2 in conds && Key(category, d1) in t && Key(category, d2) in t ==> d1 == d2
  }

  /** The category invariant: every configured category has at most one running condition. */
  ghost predicate Exclusive(t: Timers)
  {
    forall i :: 0 <= i < |CATEGORIES| ==> AtMostOne(t, CATEGORIES[i].0, CATEGORIES[i].1)
  }

  /** `getTotalMs(key)`: the accumulated time plus the open interval, if the key is running. */
  function TotalMs(s: Snapshot, k: string, now: nat): nat
    requires StartedBy(s.timers, now)
  {
    LogOf(s.logs, k) + (if k in s.timers then now - s.timers[k] else 0)
  }

  /** The logs after the running keys among `ks` have had their open interval added. */
  function Close(t: Timers, l: Logs, ks: set<string>, now: nat): Logs
    requires StartedBy(t, now)
  {
    map k | k in l.Keys + (ks * t.Keys) :: if k in ks && k in t then LogOf(l, k) + (now - t[k]) else l[k]
  }

  /** The other configured conditions of the clicked key's category. */
  function Siblings(category: string, condition: string): set<string>
    requires IsCategory(category)
  {
    KeysOf(category, Lookup(category).value) - {Key(category, condition)}
  }

  /**
   * The ledger after `handleConditionClick(category, condition)` at `now`:
   * running siblings are stopped into their logs, then the clicked key is
   * stopped into its log if it was running, or started at `now` otherwise.
   */
  function AfterClick(s: Snapshot, category: string, condition: string, now: nat): (r: Snapshot)
    requires IsCategory(category) && StartedBy(s.timers, now)
    ensures StartedBy(r.timers, now)
    ensures Positive(s.timers) && now > 0 ==> Positive(r.timers)
  {
    var key := Key(category, condition);
    var sibs := Siblings(category, condition);
    if key in s.timers then Snapshot(s.timers - (sibs + {key}), Close(s.timers, s.logs, sibs + {key}, now))
    else Snapshot((s.timers - sibs)[key := now], Close(s.timers, s.logs, sibs, now))
  }

  /** The last of `conds` (other than `key`) whose key is running, or "" if none is. */
  function LastRunning(t: Timers, category: string, conds: seq<string>, key: string): string
  {
    if conds == [] then ""
    else
      var k := Key(category, conds[|conds| - 1]);
      if k != key && k in t then k else LastRunning(t, category, conds[..|conds| - 1], key)
  }

  /** `stoppedKey`: the clicked key if it was running, else the last running sibling, else "". */
  function StoppedKey(t: Timers, category: string, condition: string): string
    requires IsCategory(category)
  {
    var key := Key(category, condition);
    if key in t then key else LastRunning(t, category, Lookup(category).value, key)
  }

  /** The ledger after `resetCategory(category)`: the category's keys are dropped from both maps. */
  function AfterReset(s: Snapshot, category: string): Snapshot
    requires IsCategory(category)
  {
    var ks := KeysOf(category, Lookup(category).value);
    Snapshot(s.timers - ks, s.logs - ks)
  }

  /** The ledger after `stopAll()` at `now`: every open interval folded into the logs. */
  function AfterStopAll(s: Snapshot, now: nat): Snapshot
    requires StartedBy(s.timers, now)
  {
    Snapshot(map[], Close(s.timers, s.logs, s.timers.Keys, now))
  }

  // ----- helper facts about Close and KeysOf -----

  lemma CloseAt(t: Timers, l: Logs, ks: set<string>, now: nat, k: string)
    requires StartedBy(t, now)
    ensures LogOf(Close(t, l, ks, now), k) == LogOf(l, k) + (if k in ks && k in t then now - t[k] else 0)
    ensures k in Close(t, l, ks, now) <==> k in l || (k in ks && k in t)
  {
  }

  lemma CloseStep(t: Timers, l: Logs, ks: set<string>, k: string, now: nat)
    requires StartedBy(t, now) && k in t && k !in ks
    ensures Close(t, l, ks + {k}, now) == Close(t, l, ks, now)[k := LogOf(Close(t, l, ks, now), k) + (now - t[k])]
  {
    var a := Close(t, l, ks + {k}, now);
    var b := Close(t, l, ks, now)[k := LogOf(Close(t, l, ks, now), k) + (now - t[k])];
    assert a.Keys == b.Keys;
    forall x | x in a ensures a[x] == b[x] {
      CloseAt(t, l, ks, now, x);
    }
  }

  lemma CloseSkip(t: Timers, l: Logs, ks: set<string>, k: string, now: nat)
    requires StartedBy(t, now) && (k !in t || k in ks)
    ensures Close(t, l, ks + {k}, now) == Close(t, l, ks, now)
  {
    var a := Close(t, l, ks + {k}, now);
    var b := Close(t, l, ks, now);
    assert a.Keys == b.Keys;
  }

  /** Removing keys one at a time removes their union. */
  lemma RemoveStep<V>(m: map<string, V>, ks: set<string>, k: string)
    ensures (m - ks) - {k} == m - (ks + {k})
  {
  }

  lemma KeysOfStep(category: string, conds: seq<string>, i: nat)
    requires i < |conds|
    ensures KeysOf(category, conds[..i + 1]) == KeysOf(category, conds[..i]) + {Key(category, conds[i])}
  {
    assert conds[..i + 1] == conds[..i] + [conds[i]];
  }

  lemma KeysOfAll(category: string, conds: seq<string>)
    ensures KeysOf(category, conds[..|conds|]) == KeysOf(category, conds)
  {
    assert conds[..|conds|] == conds;
  }

  /** A key of a category's list is built from one of that list's conditions. */
  lemma KeysOfMember(category: string, conds: seq<string>, d: string)
    ensures Key(category, d) in KeysOf(category, conds) <==> d in conds
  {
    if Key(category, d) in KeysOf(category, conds) {
      var e :| e in conds && Key(category, e) == Key(category, d);
      SameCategoryKeys(category, e, d);
    }
  }

  /** Keys of one configured category are never keys of another. */
  lemma KeysOfOther(category: string, other: string, d: string)
    requires IsCategory(category) && IsCategory(other) && category != other
    ensures Key(other, d) !in KeysOf(category, Lookup(category).value)
    ensures forall e :: Key(other, d) != Key(category, e)
  {
    var _ := LookupSome(category);
    var _ := LookupSome(other);
    forall e ensures Key(other, d) != Key(category, e) {
      if Key(other, d) == Key(category, e) {
        KeyInjective(other, d, category, e);
      }
    }
  }

  // ----- properties of a click -----

  /** The clicked key toggles: stopped into its log if it was running, started at `now` if not. */
  lemma AfterClickToggles(s: Snapshot, category: string, condition: string, now: nat)
    requires IsCategory(category) && StartedBy(s.timers, now)
    ensures var key := Key(category, condition); var r := AfterClick(s, category, condition, now);
      && (key in s.timers ==> key !in r.timers && LogOf(r.logs, key) == LogOf(s.logs, key) + (now - s.timers[key]))
      && (key !in s.timers ==> key in r.timers && r.timers[key] == now && LogOf(r.logs, key) == LogOf(s.logs, key))
  {
    var key := Key(category, condition);
    var sibs := Siblings(category, condition);
    if key in s.timers {
      CloseAt(s.timers, s.logs, sibs + {key}, now, key);
    } else {
      CloseAt(s.timers, s.logs, sibs, now, key);
    }
  }

  /** Every other condition of the category ends idle, its open interval added to its log. */
  lemma AfterClickStopsSiblings(s: Snapshot, category: string, condition: string, now: nat, d: string)
    requires IsCategory(category) && StartedBy(s.timers, now)
    requires d in Lookup(category).value && d != condition
    ensures var k := Key(category, d); var r := AfterClick(s, category, condition, now);
      && k !in r.timers
      && LogOf(r.logs, k) == LogOf(s.logs, k) + (if k in s.timers then now - s.timers[k] else 0)
  {
    var k := Key(category, d);
    var key := Key(category, condition);
    var sibs := Siblings(category, condition);
    if k == key {
      SameCategoryKeys(category, d, condition);
    }
    assert k in sibs;
    CloseAt(s.timers, s.logs, sibs + {key}, now, k);
    CloseAt(s.timers, s.logs, sibs, now, k);
  }

  /** Keys outside the clicked category (and other than the clicked key) keep their timers and logs. */
  lemma AfterClickFrame(s: Snapshot, category: string, condition: string, now: nat, k: string)
    requires IsCategory(category) && StartedBy(s.timers, now)
    requires k !in KeysOf(category, Lookup(category).value) && k != Key(category, condition)
    ensures var r := AfterClick(s, category, condition, now);
      SameAt(r.timers, s.timers, k) && SameAt(r.logs, s.logs, k)
  {
    var key := Key(category, condition);
    var sibs := Siblings(category, condition);
    CloseAt(s.timers, s.logs, sibs + {key}, now, k);
    CloseAt(s.timers, s.logs, sibs, now, k);
  }

  /** Clicking in one category leaves every key of every other category as it was. */
  lemma AfterClickOtherCategory(s: Snapshot, category: string, condition: string, now: nat, other: string, d: string)
    requires IsCategory(category) && IsCategory(other) && other != category && StartedBy(s.timers, now)
    ensures var r := AfterClick(s, category, condition, now);
      SameAt(r.timers, s.timers, Key(other, d)) && SameAt(r.logs, s.logs, Key(other, d))
  {
    KeysOfOther(category, other, d);
    AfterClickFrame(s, category, condition, now, Key(other, d));
  }

  /** A click is the siblings' stop followed by the toggle of the clicked key alone. */
  lemma AfterClickInTwoSteps(s: Snapshot, category: string, condition: string, now: nat)
    requires IsCategory(category) && StartedBy(s.timers, now)
    ensures var key := Key(category, condition);
      var sibs := Siblings(category, condition);
      var t := s.timers - sibs;
      var l := Close(s.timers, s.logs, sibs, now);
      AfterClick(s, category, condition, now)
        == if key in t then Snapshot(t - {key}, l[key := LogOf(l, key) + (now - t[key])])
           else Snapshot(t[key := now], l)
  {
    var key := Key(category, condition);
    var sibs := Siblings(category, condition);
    if key in s.timers {
      CloseStep(s.timers, s.logs, sibs, key, now);
      assert (s.timers - sibs) - {key} == s.timers - (sibs + {key});
    }
  }

  /** A click changes no live total at the instant it happens: time is moved, never lost or invented. */
  lemma AfterClickKeepsTotals(s: Snapshot, category: string, condition: string, now: nat, k: string)
    requires IsCategory(category) && StartedBy(s.timers, now)
    ensures TotalMs(AfterClick(s, category, condition, now), k, now) == TotalMs(s, k, now)
  {
    var key := Key(category, condition);
    var sibs := Siblings(category, condition);
    if key in s.timers {
      CloseAt(s.timers, s.logs, sibs + {key}, now, k);
    } else {
      CloseAt(s.timers, s.logs, sibs, now, k);
    }
  }

  /** A click keeps the category invariant. */
  lemma AfterClickExclusive(s: Snapshot, category: string, condition: string, now: nat)
    requires IsCategory(category) && StartedBy(s.timers, now) && Exclusive(s.timers)
    ensures Exclusive(AfterClick(s, category, condition, now).timers)
  {
    var r := AfterClick(s, category, condition, now);
    var key := Key(category, condition);
    var conds := Lookup(category).value;
    forall i | 0 <= i < |CATEGORIES| ensures AtMostOne(r.timers, CATEGORIES[i].0, CATEGORIES[i].1) {
      var (c, cs) := CATEGORIES[i];
      LookupAt(i);
      assert IsCategory(c);
      if c == category {
        forall d1, d2 | d1 in cs && d2 in cs && Key(c, d1) in r.timers && Key(c, d2) in r.timers
          ensures d1 == d2
        {
          if d1 != condition {
            AfterClickStopsSiblings(s, category, condition, now, d1);
          }
          if d2 != condition {
            AfterClickStopsSiblings(s, category, condition, now, d2);
          }
        }
      } else {
        forall d1, d2 | d1 in cs && d2 in cs && Key(c, d1) in r.timers && Key(c, d2) in r.timers
          ensures d1 == d2
        {
          AfterClickOtherCategory(s, category, condition, now, c, d1);
          AfterClickOtherCategory(s, category, condition, now, c, d2);
          assert AtMostOne(s.timers, c, cs);
        }
      }
    }
  }

  lemma {:induction false} LastRunningMeaning(t: Timers, category: string, conds: seq<string>, key: string)
    ensures var r := LastRunning(t, category, conds, key);
      && (r == "" <==> forall d :: d in conds ==> Key(category, d) == key || Key(category, d) !in t)
      && (r != "" ==> r in t && r != key && r in KeysOf(category, conds))
  {
    if conds != [] {
      var init := conds[..|conds| - 1];
      var last := conds[|conds| - 1];
      assert conds == init + [last];
      LastRunningMeaning(t, category, init, key);
      assert |Key(category, last)| > 0;
    }
  }

  /**
   * The reported `stoppedKey` is "" exactly when the click stopped nothing;
   * otherwise it names a key of the category that was running and no longer is.
   */
  lemma StoppedKeyMeaning(s: Snapshot, category: string, condition: string, now: nat)
    requires IsCategory(category) && StartedBy(s.timers, now)
    ensures var key := Key(category, condition);
      var sk := StoppedKey(s.timers, category, condition);
      var r := AfterClick(s, category, condition, now);
      && (sk == "" <==> forall k :: k in Siblings(category, condition) + {key} ==> k !in s.timers)
      && (sk != "" ==> sk in s.timers && sk !in r.timers && sk in Siblings(category, condition) + {key})
  {
    var key := Key(category, condition);
    var conds := Lookup(category).value;
    assert |key| > 0;
    LastRunningMeaning(s.timers, category, conds, key);
    forall k | k in Siblings(category, condition) && k in s.timers && key !in s.timers
      ensures LastRunning(s.timers, category, conds, key) != ""
    {
      var d :| d in conds && Key(category, d) == k;
    }
  }

  /** Starting and then stopping a key adds exactly the elapsed time to its log. */
  lemma OnOffAccumulates(s: Snapshot, category: string, condition: string, t1: nat, t2: nat)
    requires IsCategory(category) && StartedBy(s.timers, t1) && t1 <= t2
    requires Key(category, condition) !in s.timers
    ensures var s1 := AfterClick(s, category, condition, t1);
      var s2 := AfterClick(s1, category, condition, t2);
      && Key(category, condition) !in s2.timers
      && LogOf(s2.logs, Key(category, condition)) == LogOf(s.logs, Key(category, condition)) + (t2 - t1)
  {
    var s1 := AfterClick(s, category, condition, t1);
    AfterClickToggles(s, category, condition, t1);
    AfterClickToggles(s1, category, condition, t2);
  }

  /** Two on/off cycles of one key add up, whatever happens to other categories in between. */
  lemma TwoCyclesAdd(s: Snapshot, category: string, condition: string, other: string, d: string,
                     t1: nat, t2: nat, t3: nat, t4: nat)
    requires IsCategory(category) && IsCategory(other) && other != category
    requires StartedBy(s.timers, t1) && t1 <= t2 <= t3 <= t4
    requires Key(category, condition) !in s.timers
    ensures var key := Key(category, condition);
      var s2 := AfterClick(AfterClick(s, category, condition, t1), category, condition, t2);
      var s3 := AfterClick(s2, other, d, t3);
      var s5 := AfterClick(AfterClick(s3, category, condition, t3), category, condition, t4);
      LogOf(s5.logs, key) == LogOf(s.logs, key) + (t2 - t1) + (t4 - t3)
  {
    var key := Key(category, condition);
    var s2 := AfterClick(AfterClick(s, category, condition, t1), category, condition, t2);
    OnOffAccumulates(s, category, condition, t1, t2);
    var s3 := AfterClick(s2, other, d, t3);
    KeysOfOther(other, category, condition);
    AfterClickFrame(s2, other, d, t3, key);
    OnOffAccumulates(s3, category, condition, t3, t4);
  }

  /** The Weather scenario: Sunny from 1s to 11s, Rain from 11s to 26s. */
  lemma WeatherScenario()
    ensures var s1 := AfterClick(Snapshot(map[], map[]), "Weather", "Sunny", 1000);
      var s2 := AfterClick(s1, "Weather", "Rain", 11000);
      var s3 := AfterClick(s2, "Weather", "Rain", 26000);
      && TotalMs(s3, "Weather-Sunny", 26000) == 10000
      && TotalMs(s3, "Weather-Rain", 26000) == 15000
      && s3.timers == map[]
  {
    LookupAt(0);
    assert Key("Weather", "Sunny") == "Weather-Sunny";
    assert Key("Weather", "Rain") == "Weather-Rain";
    assert "Sunny" in CATEGORIES[0].1 && "Rain" in CATEGORIES[0].1;
    var s0 := Snapshot(map[], map[]);
    var s1 := AfterClick(s0, "Weather", "Sunny", 1000);
    AfterClickToggles(s0, "Weather", "Sunny", 1000);
    assert s1.timers == map["Weather-Sunny" := 1000] by {
      forall d | d in CATEGORIES[0].1 && d != "Sunny" ensures Key("Weather", d) !in s1.timers {
        AfterClickStopsSiblings(s0, "Weather", "Sunny", 1000, d);
      }
    }
    var s2 := AfterClick(s1, "Weather", "Rain", 11000);
    AfterClickToggles(s1, "Weather", "Rain", 11000);
    AfterClickStopsSiblings(s1, "Weather", "Rain", 11000, "Sunny");
    assert "Weather-Sunny" in Siblings("Weather", "Rain");
    assert s2.timers == map["Weather-Rain" := 11000];
    var s3 := AfterClick(s2, "Weather", "Rain", 26000);
    AfterClickToggles(s2, "Weather", "Rain", 26000);
    AfterClickStopsSiblings(s2, "Weather", "Rain", 26000, "Sunny");
  }

  // ----- properties of a reset -----

  /** After a reset every key of the category is idle with no accumulated time. */
  lemma AfterResetClears(s: Snapshot, category: string, d: string, now: nat)
    requires IsCategory(category) && StartedBy(s.timers, now)
    requires d in Lookup(category).value
    ensures var r := AfterReset(s, category);
      && Key(category, d) !in r.timers && Key(category, d) !in r.logs
      && StartedBy(r.timers, now) && TotalMs(r, Key(category, d), now) == 0
  {
  }

  /** A reset leaves every key outside its category as it was: nothing is accumulated or dropped. */
  lemma AfterResetFrame(s: Snapshot, category: string, k: string)
    requires IsCategory(category) && k !in KeysOf(category, Lookup(category).value)
    ensures SameAt(AfterReset(s, category).timers, s.timers, k) && SameAt(AfterReset(s, category).logs, s.logs, k)
  {
  }

  /** A reset of one category leaves the keys of every other category as they were. */
  lemma AfterResetOtherCategory(s: Snapshot, category: string, other: string, d: string)
    requires IsCategory(category) && IsCategory(other) && other != category
    ensures SameAt(AfterReset(s, category).timers, s.timers, Key(other, d))
    ensures SameAt(AfterReset(s, category).logs, s.logs, Key(other, d))
  {
    KeysOfOther(category, other, d);
  }

  lemma AfterResetExclusive(s: Snapshot, category: string)
    requires IsCategory(category) && Exclusive(s.timers)
    ensures Exclusive(AfterReset(s, category).timers)
  {
    var r := AfterReset(s, category);
    forall i | 0 <= i < |CATEGORIES| ensures AtMostOne(r.timers, CATEGORIES[i].0, CATEGORIES[i].1) {
      assert AtMostOne(s.timers, CATEGORIES[i].0, CATEGORIES[i].1);
    }
  }

  // ----- properties of stop-all -----

  /**
   * After stop-all nothing runs and each key's log holds what its live total
   * was: running keys gained exactly `now - start`, idle keys kept their log.
   */
  lemma AfterStopAllTotals(s: Snapshot, now: nat, k: string)
    requires StartedBy(s.timers, now)
    ensures var r := AfterStopAll(s, now);
      && r.timers == map[]
      && r.logs.Keys == s.logs.Keys + s.timers.Keys
      && LogOf(r.logs, k) == TotalMs(s, k, now)
  {
    CloseAt(s.timers, s.logs, s.timers.Keys, now, k);
    var r := AfterStopAll(s, now);
    forall x ensures x in r.logs <==> x in s.logs || x in s.timers {
      CloseAt(s.timers, s.logs, s.timers.Keys, now, x);
    }
  }

  /** A second stop-all at the same instant changes nothing: exporting twice writes the same totals. */
  lemma AfterStopAllIdempotent(s: Snapshot, now: nat)
    requires StartedBy(s.timers, now)
    ensures StartedBy(AfterStopAll(s, now).timers, now)
    ensures AfterStopAll(AfterStopAll(s, now), now) == AfterStopAll(s, now)
  {
    var r := AfterStopAll(s, now);
    assert Close(r.timers, r.logs, r.timers.Keys, now) == r.logs;
  }

  /** Live totals only grow: by the elapsed time while running, not at all while idle. */
  lemma TotalMsGrowth(s: Snapshot, k: string, now1: nat, now2: nat)
    requires StartedBy(s.timers, now1) && now1 <= now2
    ensures StartedBy(s.timers, now2)
    ensures TotalMs(s, k, now2) == TotalMs(s, k, now1) + (if k in s.timers then now2 - now1 else 0)
    ensures TotalMs(s, k, now1) >= LogOf(s.logs, k)
  {
  }

  // ----- the ledger object -----

  /**
   * One step of the sibling walk: visiting condition `i` takes maps in the
   * closed form for `conds[..i]` to the closed form for `conds[..i + 1]`.
   */
  lemma SiblingStep(t: Timers, l: Logs, category: string, conds: seq<string>, key: string, now: nat, i: nat,
                    ut: Timers, ul: Logs)
    requires Distinct(conds) && StartedBy(t, now) && i < |conds|
    requires ut == t - (KeysOf(category, conds[..i]) - {key})
    requires ul == Close(t, l, KeysOf(category, conds[..i]) - {key}, now)
    ensures var k := Key(category, conds[i]);
      var next := KeysOf(category, conds[..i + 1]) - {key};
      && (k != key && k in ut ==>
            && ut - {k} == t - next
            && ul[k := LogOf(ul, k) + (now - ut[k])] == Close(t, l, next, now)
            && LastRunning(t, category, conds[..i + 1], key) == k)
      && (!(k != key && k in ut) ==>
            && ut == t - next
            && ul == Close(t, l, next, now)
            && LastRunning(t, category, conds[..i + 1], key) == LastRunning(t, category, conds[..i], key))
  {
    var k := Key(category, conds[i]);
    var done := KeysOf(category, conds[..i]) - {key};
    KeysOfStep(category, conds, i);
    assert conds[..i + 1][..i] == conds[..i];
    KeysOfMember(category, conds[..i], conds[i]);
    assert k !in done;
    if k != key && k in t {
      assert KeysOf(category, conds[..i + 1]) - {key} == done + {k};
      RemoveStep(t, done, k);
      CloseStep(t, l, done, k, now);
    } else if k == key {
      assert KeysOf(category, conds[..i + 1]) - {key} == done;
    } else {
      assert KeysOf(category, conds[..i + 1]) - {key} == done + {k};
      assert t - (done + {k}) == t - done;
      CloseSkip(t, l, done, k, now);
    }
  }

  /**
   * The sibling walk of `handleConditionClick`: each running condition of the
   * category other than `key` is removed from the timers and its elapsed time
   * added to its log; the last key stopped is reported.
   */
  method StopSiblings(t: Timers, l: Logs, category: string, conds: seq<string>, key: string, now: nat)
    returns (updatedTimers: Timers, updatedLogs: Logs, stoppedKey: string)
    requires Distinct(conds) && StartedBy(t, now)
    ensures updatedTimers == t - (KeysOf(category, conds) - {key})
    ensures updatedLogs == Close(t, l, KeysOf(category, conds) - {key}, now)
    ensures stoppedKey == LastRunning(t, category, conds, key)
  {
    updatedTimers, updatedLogs := t, l;
    stoppedKey := "";
    for i := 0 to |conds|
      invariant updatedTimers == t - (KeysOf(category, conds[..i]) - {key})
      invariant updatedLogs == Close(t, l, KeysOf(category, conds[..i]) - {key}, now)
      invariant stoppedKey == LastRunning(t, category, conds[..i], key)
    {
      var condKey := Key(category, conds[i]);
      SiblingStep(t, l, category, conds, key, now, i, updatedTimers, updatedLogs);
      if condKey != key && condKey in updatedTimers {
        updatedLogs := updatedLogs[condKey := LogOf(updatedLogs, condKey) + (now - updatedTimers[condKey])];
        updatedTimers := updatedTimers - {condKey};
        stoppedKey := condKey;
      }
    }
    KeysOfAll(category, conds);
    assert conds[..|conds|] == conds;
  }

  class Ledger {
    var timers: Timers
    var logs: Logs

    ghost predicate Valid()
      reads this
    {
      Positive(timers) && Exclusive(timers)
    }

    function Snap(): Snapshot
      reads this
    {
      Snapshot(timers, logs)
    }

    constructor ()
      ensures Valid() && timers == map[] && logs == map[]
    {
      timers := map[];
      logs := map[];
    }

    /** `handleConditionClick`'s timer update: returns the key it reports as just stopped, or "". */
    method Click(category: string, condition: string, now: nat) returns (stoppedKey: string)
      requires Valid() && IsCategory(category) && now > 0 && StartedBy(timers, now)
      modifies this
      ensures Valid()
      ensures Snap() == AfterClick(old(Snap()), category, condition, now)
      ensures stoppedKey == StoppedKey(old(timers), category, condition)
    {
      var key := Key(category, condition);
      var updatedTimers, updatedLogs;
      var _ := LookupSome(category);
      updatedTimers, updatedLogs, stoppedKey := StopSiblings(timers, logs, category, Lookup(category).value, key, now);
      AfterClickInTwoSteps(Snap(), category, condition, now);
      if key in updatedTimers {
        updatedLogs := updatedLogs[key := LogOf(updatedLogs, key) + (now - updatedTimers[key])];
        updatedTimers := updatedTimers - {key};
        stoppedKey := key;
      } else {
        updatedTimers := updatedTimers[key := now];
      }
      AfterClickExclusive(Snap(), category, condition, now);
      timers := updatedTimers;
      logs := updatedLogs;
    }

    /** `resetCategory`: drops the category's keys from both maps without accumulating. */
    method ResetCategory(category: string)
      requires Valid() && IsCategory(category)
      modifies this
      ensures Valid()
      ensures Snap() == AfterReset(old(Snap()), category)
    {
      var conds := Lookup(category).value;
      var t0, l0 := timers, logs;
      var updatedLogs := logs;
      var updatedTimers := timers;
      for i := 0 to |conds|
        invariant updatedTimers == t0 - KeysOf(category, conds[..i])
        invariant updatedLogs == l0 - KeysOf(category, conds[..i])
      {
        KeysOfStep(category, conds, i);
        var key := Key(category, conds[i]);
        RemoveStep(t0, KeysOf(category, conds[..i]), key);
        RemoveStep(l0, KeysOf(category, conds[..i]), key);
        updatedTimers := updatedTimers - {key};
        updatedLogs := updatedLogs - {key};
      }
      KeysOfAll(category, conds);
      AfterResetExclusive(old(Snap()), category);
      timers := updatedTimers;
      logs := updatedLogs;
    }

    /** `stopAll`: folds every open interval into the logs and leaves nothing running. */
    method StopAll(now: nat)
      requires Valid() && StartedBy(timers, now)
      modifies this
      ensures Valid()
      ensures Snap() == AfterStopAll(old(Snap()), now)
    {
      var t0, l0 := timers, logs;
      var updatedLogs := logs;
      var updatedTimers := timers;
      while updatedTimers != map[]
        invariant updatedTimers == t0 - (t0.Keys - updatedTimers.Keys)
        invariant updatedLogs == Close(t0, l0, t0.Keys - updatedTimers.Keys, now)
        decreases updatedTimers.Keys
      {
        var key :| key in updatedTimers;
        var done := t0.Keys - updatedTimers.Keys;
        CloseAt(t0, l0, done, now, key);
        CloseStep(t0, l0, done, key, now);
        updatedLogs := updatedLogs[key := LogOf(updatedLogs, key) + (now - updatedTimers[key])];
        updatedTimers := updatedTimers - {key};
        assert t0.Keys - updatedTimers.Keys == done + {key};
      }
      assert t0.Keys - updatedTimers.Keys == t0.Keys;
      logs := updatedLogs;
      timers := map[];
    }
  }
}
