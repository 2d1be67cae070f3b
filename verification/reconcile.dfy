/**
 * `Mixcloud.check_for_updated_src`: when a source fails to play, every playlist entry whose `src`
 * is exactly that source is resolved again from its key, and the entry takes the new source once
 * the resolution settles.
 *
 * The resolver is a total function from key to `Option<string>`: `None` when the resolution throws
 * or settles with nothing. The background callbacks are applied one after another; each touches
 * only its own entry.
 */
module Reconcile {
  import opened Wrappers

  /** A playlist song record: its resolver key and its current (possibly null) audio source. */
  datatype Entry = Entry(key: string, src: Option<string>)

  /**
   * What one reconciliation leaves behind: the live list, the keys whose callbacks have run (in
   * the order the callbacks ran), and the `(key, src)` updates written to the log.
   */
  datatype Reconciliation = Reconciliation(entries: seq<Entry>, resolved: seq<string>, updates: seq<(string, string)>)

  /** JavaScript truthiness of a nullable string: present and not empty. */
  predicate Truthy(s: Option<string>)
  {
    s.Some? && s.value != ""
  }

  /** The reference outcome for one matching entry: it takes the resolved source when that is truthy. */
  function Settled(e: Entry, resolve: string -> Option<string>): (r: Entry)
  {
    if Truthy(resolve(e.key)) then e.(src := resolve(e.key)) else e
  }

  /** The positions from `from` on whose entry's `src` is exactly `stale`, in list order. */
  function MatchesFrom(entries: seq<Entry>, stale: string, from: nat): (idx: seq<nat>)
    requires from <= |entries|
    ensures forall k :: 0 <= k < |idx| ==> from <= idx[k] < |entries| && entries[idx[k]].src == Some(stale)
    ensures forall i :: from <= i < |entries| && entries[i].src == Some(stale) ==> i in idx
    ensures forall k, l :: 0 <= k < l < |idx| ==> idx[k] < idx[l]
    decreases |entries| - from
  {
    if from == |entries| then []
    else if entries[from].src == Some(stale) then [from] + MatchesFrom(entries, stale, from + 1)
    else MatchesFrom(entries, stale, from + 1)
  }

  /** The scan of the `for` loop: the positions whose `src == stale`. */
  function Matches(entries: seq<Entry>, stale: string): seq<nat>
  {
    MatchesFrom(entries, stale, 0)
  }

  predicate Distinct(order: seq<nat>)
  {
    forall k, l :: 0 <= k < l < |order| ==> order[k] != order[l]
  }

  predicate InRange(order: seq<nat>, n: nat)
  {
    forall k :: 0 <= k < |order| ==> order[k] < n
  }

  /**
   * The callback of entry `i` runs on its settled resolution: the entry takes a truthy value that
   * differs from its current `src`, and the change is logged; anything else leaves it. The key is
   * recorded as settled.
   */
  function Step(run: Reconciliation, i: nat, resolve: string -> Option<string>): (r: Reconciliation)
    requires i < |run.entries|
    ensures |r.entries| == |run.entries|
    ensures forall j :: 0 <= j < |run.entries| && j != i ==> r.entries[j] == run.entries[j]
    ensures r.entries[i].key == run.entries[i].key
    ensures Truthy(resolve(run.entries[i].key)) ==> r.entries[i].src == resolve(run.entries[i].key)
    ensures !Truthy(resolve(run.entries[i].key)) ==> r.entries[i] == run.entries[i]
    ensures r.resolved == run.resolved + [run.entries[i].key]
    ensures r.updates == run.updates + if r.entries[i] == run.entries[i] then []
                                       else [(r.entries[i].key, r.entries[i].src.value)]
  {
    var e := run.entries[i];
    var newSrc := resolve(e.key);
    if Truthy(newSrc) && e.src != newSrc then
      Reconciliation(run.entries[i := e.(src := newSrc)], run.resolved + [e.key], run.updates + [(e.key, newSrc.value)])
    else
      Reconciliation(run.entries, run.resolved + [e.key], run.updates)
  }

  /**
   * The callbacks of the positions in `order`, run one after another in that order: the list keeps
   * its length and every key, and the settled keys grow by the keys of `order`, in that order.
   */
  function ApplyAll(run: Reconciliation, order: seq<nat>, resolve: string -> Option<string>): (r: Reconciliation)
    requires InRange(order, |run.entries|)
    ensures |r.entries| == |run.entries|
    ensures forall i :: 0 <= i < |run.entries| ==> r.entries[i].key == run.entries[i].key
    ensures |r.resolved| == |run.resolved| + |order|
    ensures r.resolved[..|run.resolved|] == run.resolved
    ensures forall k :: 0 <= k < |order| ==> r.resolved[|run.resolved| + k] == run.entries[order[k]].key
    decreases |order|
  {
    if order == [] then run else ApplyAll(Step(run, order[0], resolve), order[1..], resolve)
  }

  /**
   * Whatever order the callbacks of distinct positions run in, each position in it ends settled
   * and every other position is untouched.
   */
  lemma {:induction false} ApplyAllPointwise(run: Reconciliation, order: seq<nat>, resolve: string -> Option<string>)
    requires InRange(order, |run.entries|) && Distinct(order)
    ensures var r := ApplyAll(run, order, resolve);
      forall i :: 0 <= i < |run.entries| ==>
        r.entries[i] == if i in order then Settled(run.entries[i], resolve) else run.entries[i]
    decreases |order|
  {
    if order != [] {
      var step := Step(run, order[0], resolve);
      var rest := order[1..];
      assert InRange(rest, |step.entries|);
      assert Distinct(rest);
      ApplyAllPointwise(step, rest, resolve);
      var r := ApplyAll(run, order, resolve);
      assert r == ApplyAll(step, rest, resolve);
      forall i | 0 <= i < |run.entries|
        ensures r.entries[i] == if i in order then Settled(run.entries[i], resolve) else run.entries[i]
      {
        if i == order[0] {
          assert i !in rest;
        } else {
          assert i in order <==> i in rest;
        }
      }
    }
  }

  lemma MatchesDistinct(entries: seq<Entry>, stale: string)
    ensures Distinct(Matches(entries, stale)) && InRange(Matches(entries, stale), |entries|)
  {
  }

  /**
   * `check_for_updated_src(stale)` over the live list. A null or empty `stale` does nothing;
   * otherwise exactly the entries whose `src` is `stale` are resolved, in list order (the scan
   * starts every resolution before any callback runs), each of them ends with the truthy resolved
   * source or as it was, and no key and no other entry changes.
   */
  function CheckForUpdatedSrc(stale: Option<string>, entries: seq<Entry>, resolve: string -> Option<string>): (r: Reconciliation)
    ensures !Truthy(stale) ==> r == Reconciliation(entries, [], [])
    ensures |r.entries| == |entries|
    ensures forall i :: 0 <= i < |entries| ==> r.entries[i].key == entries[i].key
    ensures forall i :: 0 <= i < |entries| ==>
              r.entries[i] == if Truthy(stale) && entries[i].src == stale then Settled(entries[i], resolve)
                              else entries[i]
    ensures Truthy(stale) ==> |r.resolved| == |Matches(entries, stale.value)|
    ensures Truthy(stale) ==> forall k :: 0 <= k < |r.resolved| ==>
              r.resolved[k] == entries[Matches(entries, stale.value)[k]].key
              && entries[Matches(entries, stale.value)[k]].src == stale
  {
    if !Truthy(stale) then
      Reconciliation(entries, [], [])
    else
      var start := Reconciliation(entries, [], []);
      var order := Matches(entries, stale.value);
      MatchesDistinct(entries, stale.value);
      ApplyAllPointwise(start, order, resolve);
      ApplyAll(start, order, resolve)
  }

  /** The callbacks may settle in any order: every permutation of the matches leaves the same list. */
  lemma CompletionOrderIrrelevant(stale: string, entries: seq<Entry>, resolve: string -> Option<string>,
                                  order: seq<nat>)
    requires stale != ""
    requires InRange(order, |entries|) && Distinct(order)
    requires forall i :: i in order <==> i in Matches(entries, stale)
    ensures ApplyAll(Reconciliation(entries, [], []), order, resolve).entries
            == CheckForUpdatedSrc(Some(stale), entries, resolve).entries
  {
    ApplyAllPointwise(Reconciliation(entries, [], []), order, resolve);
    var a := ApplyAll(Reconciliation(entries, [], []), order, resolve).entries;
    var b := CheckForUpdatedSrc(Some(stale), entries, resolve).entries;
    forall i | 0 <= i < |entries|
      ensures a[i] == b[i]
    {
      assert i in order <==> entries[i].src == Some(stale);
    }
  }

  /** A stale source that no entry holds calls no resolver and changes nothing. */
  lemma NoMatchNoCalls(stale: Option<string>, entries: seq<Entry>, resolve: string -> Option<string>)
    requires forall i :: 0 <= i < |entries| ==> entries[i].src != stale
    ensures CheckForUpdatedSrc(stale, entries, resolve).entries == entries
    ensures CheckForUpdatedSrc(stale, entries, resolve).resolved == []
  {
    var r := CheckForUpdatedSrc(stale, entries, resolve);
    if Truthy(stale) {
      assert forall i :: 0 <= i < |entries| ==> r.entries[i] == entries[i];
      NoMatchesFrom(entries, stale.value, 0);
    }
  }

  lemma {:induction false} NoMatchesFrom(entries: seq<Entry>, stale: string, from: nat)
    requires from <= |entries|
    requires forall i :: from <= i < |entries| ==> entries[i].src != Some(stale)
    ensures MatchesFrom(entries, stale, from) == []
    decreases |entries| - from
  {
    if from < |entries| {
      NoMatchesFrom(entries, stale, from + 1);
    }
  }

  /** Reconciling the same stale source again, with the same resolutions, changes nothing more. */
  lemma ReconcileIdempotent(stale: Option<string>, entries: seq<Entry>, resolve: string -> Option<string>)
    ensures var once := CheckForUpdatedSrc(stale, entries, resolve).entries;
            CheckForUpdatedSrc(stale, once, resolve).entries == once
  {
    var once := CheckForUpdatedSrc(stale, entries, resolve).entries;
    var twice := CheckForUpdatedSrc(stale, once, resolve).entries;
    forall i | 0 <= i < |entries|
      ensures twice[i] == once[i]
    {
    }
  }

  /** When only the first two of three entries hold `stale`, the scan finds exactly those two. */
  lemma FirstTwoMatch(stale: string, entries: seq<Entry>)
    requires |entries| == 3
    requires entries[0].src == Some(stale) && entries[1].src == Some(stale) && entries[2].src != Some(stale)
    ensures Matches(entries, stale) == [0, 1]
  {
    assert MatchesFrom(entries, stale, 2) == [];
    assert MatchesFrom(entries, stale, 1) == [1];
  }

  /**
   * In a three-entry list whose first two entries hold the stale source and whose third does not,
   * the first two end settled and the third is left alone.
   */
  lemma FirstTwoSettled(stale: string, entries: seq<Entry>, resolve: string -> Option<string>)
    requires stale != ""
    requires |entries| == 3
    requires entries[0].src == Some(stale) && entries[1].src == Some(stale) && entries[2].src != Some(stale)
    ensures CheckForUpdatedSrc(Some(stale), entries, resolve).entries
            == [Settled(entries[0], resolve), Settled(entries[1], resolve), entries[2]]
  {
    var r := CheckForUpdatedSrc(Some(stale), entries, resolve);
    assert r.entries[0] == Settled(entries[0], resolve);
    assert r.entries[1] == Settled(entries[1], resolve);
    assert r.entries[2] == entries[2];
  }

  /** In the same list, exactly the first two keys are resolved, in list order. */
  lemma FirstTwoResolved(stale: string, entries: seq<Entry>, resolve: string -> Option<string>)
    requires stale != ""
    requires |entries| == 3
    requires entries[0].src == Some(stale) && entries[1].src == Some(stale) && entries[2].src != Some(stale)
    ensures CheckForUpdatedSrc(Some(stale), entries, resolve).resolved == [entries[0].key, entries[1].key]
  {
    var r := CheckForUpdatedSrc(Some(stale), entries, resolve);
    var m := Matches(entries, stale);
    FirstTwoMatch(stale, entries);
    assert |r.resolved| == 2;
    assert r.resolved[0] == entries[m[0]].key;
    assert r.resolved[1] == entries[m[1]].key;
  }

  /** A three-song playlist: `a` and `b` hold the source `S`, `c` holds `T`. */
  const ScenarioPlaylist: seq<Entry> := [Entry("a", Some("S")), Entry("b", Some("S")), Entry("c", Some("T"))]

  /**
   * `S` fails in the playlist above; `a` resolves to `S2` and `b` fails: only `a` and `b` are
   * resolved, and only `a` changes.
   */
  lemma ThreeEntryScenario(resolve: string -> Option<string>)
    requires resolve("a") == Some("S2") && resolve("b") == None
    ensures CheckForUpdatedSrc(Some("S"), ScenarioPlaylist, resolve).entries
            == [Entry("a", Some("S2")), Entry("b", Some("S")), Entry("c", Some("T"))]
    ensures CheckForUpdatedSrc(Some("S"), ScenarioPlaylist, resolve).resolved == ["a", "b"]
  {
    FirstTwoSettled("S", ScenarioPlaylist, resolve);
    FirstTwoResolved("S", ScenarioPlaylist, resolve);
  }
}
