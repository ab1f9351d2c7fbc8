/** The condition list of a custom resource's status, and the history its timestamps record. */
module Conditions {

  datatype Status = True | False | Unknown

  /** A transition time of 0 is Go's zero time: "not set". */
  datatype Condition = Condition(kind: string, status: Status, time: nat, reason: string, message: string)

  function Find(list: seq<Condition>, kind: string): (i: nat)
    ensures i <= |list|
    ensures i < |list| ==> list[i].kind == kind
    ensures forall j :: 0 <= j < i ==> list[j].kind != kind
  {
    if list == [] then 0
    else if list[0].kind == kind then 0
    else 1 + Find(list[1..], kind)
  }

  method FindStatusCondition(list: seq<Condition>, kind: string) returns (i: nat)
    ensures i == Find(list, kind)
  {
    i := 0;
    while i < |list|
      invariant i <= |list|
      invariant Find(list, kind) == i + Find(list[i..], kind)
    {
      if list[i].kind == kind { return; }
      i := i + 1;
    }
  }

  /** The incoming time if it is set, else the clock. */
  function Stamp(c: Condition, now: nat): nat
  {
    if c.time == 0 then now else c.time
  }

  function Set(list: seq<Condition>, c: Condition, now: nat): seq<Condition>
  {
    var i := Find(list, c.kind);
    if i == |list| then list + [c.(time := Stamp(c, now))]
    else list[i := c.(time := if list[i].status != c.status then Stamp(c, now) else list[i].time)]
  }

  class ConditionList {
    var items: seq<Condition>

    constructor (items: seq<Condition>)
      ensures this.items == items
    {
      this.items := items;
    }

    method SetStatusCondition(c: Condition, now: nat)
      modifies this
      ensures items == Set(old(items), c, now)
    {
      var i := FindStatusCondition(items, c.kind);
      if i == |items| {
        var added := c;
        if added.time == 0 { added := added.(time := now); }
        items := items + [added];
        return;
      }
      if items[i].status != c.status {
        items := items[i := items[i].(status := c.status)];
        if c.time != 0 {
          items := items[i := items[i].(time := c.time)];
        } else {
          items := items[i := items[i].(time := now)];
        }
      }
      items := items[i := items[i].(reason := c.reason)];
      items := items[i := items[i].(message := c.message)];
    }

    /** On an empty list the new slice would get a negative capacity: a panic. */
    method RemoveStatusCondition(kind: string) returns (panics: bool)
      modifies this
      ensures panics <==> old(items) == []
      ensures items == if panics then old(items) else Without(old(items), kind)
    {
      if items == [] { return true; }
      var kept: seq<Condition> := [];
      for i := 0 to |items|
        invariant items == old(items) && kept == Without(items[..i], kind)
      {
        assert items[..i + 1] == items[..i] + [items[i]];
        if items[i].kind != kind { kept := kept + [items[i]]; }
      }
      assert items[..|items|] == items;
      items := kept;
      return false;
    }
  }

  function Without(list: seq<Condition>, kind: string): seq<Condition>
  {
    if list == [] then []
    else
      var last := list[|list| - 1];
      Without(list[..|list| - 1], kind) + (if last.kind == kind then [] else [last])
  }

  /** Removal takes out this kind and nothing else. */
  lemma {:induction false} RemovedKindIsGone(list: seq<Condition>, kind: string)
    ensures forall c :: c in Without(list, kind) <==> c in list && c.kind != kind
  {
    if list != [] {
      var n := |list| - 1;
      RemovedKindIsGone(list[..n], kind);
      assert list == list[..n] + [list[n]];
    }
  }

  /** And it works entry by entry, in order. */
  lemma {:induction false} RemovalInOrder(before: seq<Condition>, after: seq<Condition>, kind: string)
    ensures Without(before + after, kind) == Without(before, kind) + Without(after, kind)
    ensures (forall c :: c in before ==> c.kind != kind) ==> Without(before, kind) == before
    ensures (forall c :: c in before ==> c.kind == kind) ==> Without(before, kind) == []
    decreases |before| + |after|
  {
    if after != [] {
      var n := |after| - 1;
      assert (before + after)[..|before + after| - 1] == before + after[..n];
      RemovalInOrder(before, after[..n], kind);
    } else if before != [] {
      var n := |before| - 1;
      assert before + after == before && before == before[..n] + [before[n]];
      RemovalInOrder(before[..n], [], kind);
    }
    assert before + [] == before;
  }

  // ---- history -------------------------------------------------------------------------------

  /** One call of SetStatusCondition and the clock it ran under. */
  datatype Report = Report(condition: Condition, now: nat)

  function Replay(calls: seq<Report>): seq<Condition>
  {
    if calls == [] then []
    else
      var last := calls[|calls| - 1];
      Set(Replay(calls[..|calls| - 1]), last.condition, last.now)
  }

  /** The kinds reported, in the order they were first reported. */
  function FirstSeen(calls: seq<Report>): seq<string>
  {
    if calls == [] then []
    else
      var before := FirstSeen(calls[..|calls| - 1]);
      var kind := calls[|calls| - 1].condition.kind;
      if kind in before then before else before + [kind]
  }

  /** The i-th call reports this kind and no later one does. */
  ghost predicate IsLatest(calls: seq<Report>, kind: string, i: nat)
  {
    && i < |calls| && calls[i].condition.kind == kind
    && forall j :: i < j < |calls| ==> calls[j].condition.kind != kind
  }

  /** The i-th call changed this kind's status: it is the first report of the kind, or the report of
      the kind before it carried another status. */
  ghost predicate IsChange(calls: seq<Report>, kind: string, i: nat)
  {
    && i < |calls| && calls[i].condition.kind == kind
    && forall p: nat :: IsLatest(calls[..i], kind, p) ==> calls[p].condition.status != calls[i].condition.status
  }

  /** The last call that changed this kind's status. */
  ghost predicate IsLastChange(calls: seq<Report>, kind: string, i: nat)
  {
    && IsChange(calls, kind, i)
    && forall j :: i < j < |calls| ==> !IsChange(calls, kind, j)
  }

  ghost predicate Tells(entry: Condition, calls: seq<Report>, latest: nat, change: nat)
  {
    && IsLatest(calls, entry.kind, latest)
    && IsLastChange(calls, entry.kind, change)
    && var changed := calls[change];
       entry == calls[latest].condition.(time := if changed.condition.time == 0 then changed.now else changed.condition.time)
  }

  function Kinds(list: seq<Condition>): (kinds: seq<string>)
    ensures |kinds| == |list|
  {
    seq(|list|, i requires 0 <= i < |list| => list[i].kind)
  }

  lemma KindsOfSet(list: seq<Condition>, c: Condition, now: nat)
    ensures Kinds(Set(list, c, now)) == if c.kind in Kinds(list) then Kinds(list) else Kinds(list) + [c.kind]
  {
    var i := Find(list, c.kind);
    if i < |list| {
      assert Kinds(list)[i] == c.kind;
    } else {
      assert forall k :: k in Kinds(list) ==> k != c.kind;
    }
  }

  lemma TellsStaysTrue(entry: Condition, calls: seq<Report>, next: Report, latest: nat, change: nat)
    requires Tells(entry, calls, latest, change) && next.condition.kind != entry.kind
    ensures Tells(entry, calls + [next], latest, change)
  {
    var longer := calls + [next];
    forall i | 0 <= i <= |calls| ensures longer[..i] == calls[..i] {}
    assert IsChange(longer, entry.kind, change);
    forall j | change < j < |longer| ensures !IsChange(longer, entry.kind, j) {
      if j < |calls| { assert !IsChange(calls, entry.kind, j); }
    }
  }

  lemma TellsUpdated(entry: Condition, calls: seq<Report>, next: Report, latest: nat, change: nat)
    requires Tells(entry, calls, latest, change) && next.condition.kind == entry.kind
    ensures entry.status == next.condition.status ==>
      Tells(next.condition.(time := entry.time), calls + [next], |calls|, change)
    ensures entry.status != next.condition.status ==>
      Tells(next.condition.(time := Stamp(next.condition, next.now)), calls + [next], |calls|, |calls|)
  {
    var longer := calls + [next];
    forall i | 0 <= i <= |calls| ensures longer[..i] == calls[..i] {}
    assert IsLatest(longer[..|calls|], entry.kind, latest);
    assert IsChange(longer, entry.kind, change);
    forall j | change < j < |calls| ensures !IsChange(longer, entry.kind, j) {
      assert !IsChange(calls, entry.kind, j);
    }
    if entry.status != next.condition.status {
      forall p: nat | IsLatest(longer[..|calls|], entry.kind, p) ensures p == latest {}
      assert IsChange(longer, entry.kind, |calls|);
    }
  }

  /** After any sequence of calls from the empty list: one entry per reported kind, in first-seen order;
      each holds what the latest call for its kind said, stamped by the last call that changed its status. */
  lemma {:induction false} HistoryIsRecorded(calls: seq<Report>)
    ensures Kinds(Replay(calls)) == FirstSeen(calls)
    ensures forall i, j :: 0 <= i < j < |FirstSeen(calls)| ==> FirstSeen(calls)[i] != FirstSeen(calls)[j]
    ensures forall k :: k in FirstSeen(calls) <==> exists i :: 0 <= i < |calls| && calls[i].condition.kind == k
    ensures forall e :: e in Replay(calls) ==> exists latest: nat, change: nat :: Tells(e, calls, latest, change)
  {
    if calls != [] {
      var n := |calls| - 1;
      var earlier := calls[..n];
      var next := calls[n];
      assert calls == earlier + [next];
      HistoryIsRecorded(earlier);
      KindsOfSet(Replay(earlier), next.condition, next.now);
      forall k ensures k in FirstSeen(calls) <==> exists i :: 0 <= i < |calls| && calls[i].condition.kind == k {
        if k in FirstSeen(earlier) {
          var i :| 0 <= i < n && earlier[i].condition.kind == k;
          assert calls[i].condition.kind == k;
        } else if k in FirstSeen(calls) {
          assert calls[n].condition.kind == k;
        } else {
          forall i | 0 <= i < |calls| ensures calls[i].condition.kind != k {
            if i < n { assert earlier[i].condition.kind != k; }
          }
        }
      }
      EntriesTell(earlier, next);
    }
  }

  lemma EntriesTell(earlier: seq<Report>, next: Report)
    requires Kinds(Replay(earlier)) == FirstSeen(earlier)
    requires forall i, j :: 0 <= i < j < |FirstSeen(earlier)| ==> FirstSeen(earlier)[i] != FirstSeen(earlier)[j]
    requires forall k :: k in FirstSeen(earlier) <==> exists i :: 0 <= i < |earlier| && earlier[i].condition.kind == k
    requires forall e :: e in Replay(earlier) ==> exists latest: nat, change: nat :: Tells(e, earlier, latest, change)
    ensures forall e :: e in Set(Replay(earlier), next.condition, next.now) ==>
      exists latest: nat, change: nat :: Tells(e, earlier + [next], latest, change)
  {
    var list := Replay(earlier);
    var after := Set(list, next.condition, next.now);
    var at := Find(list, next.condition.kind);
    forall i | 0 <= i < |after| ensures exists latest: nat, change: nat :: Tells(after[i], earlier + [next], latest, change) {
      if i < |list| {
        assert list[i] in list;
        var latest: nat, change: nat :| Tells(list[i], earlier, latest, change);
        assert Kinds(list)[i] == list[i].kind;
        if i == at {
          TellsUpdated(list[i], earlier, next, latest, change);
          if list[i].status == next.condition.status {
            assert Tells(after[i], earlier + [next], |earlier|, change);
          } else {
            assert Tells(after[i], earlier + [next], |earlier|, |earlier|);
          }
        } else {
          assert list[i].kind != next.condition.kind by {
            if at < |list| { assert Kinds(list)[at] == list[at].kind; }
          }
          TellsStaysTrue(list[i], earlier, next, latest, change);
          assert Tells(after[i], earlier + [next], latest, change);
        }
      } else {
        assert next.condition.kind !in Kinds(list);
        forall k | 0 <= k < |earlier| ensures earlier[k].condition.kind != next.condition.kind {}
        assert Tells(after[i], earlier + [next], |earlier|, |earlier|);
      }
    }
  }
}
