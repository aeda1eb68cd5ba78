/**
 * The loops the stand-alone scripts run straight on an SDK packet handler
 * (no connection manager): ping every ID, send one command to every ID and
 * count the successes, read every ID's position.  A script either wraps
 * each pass in its own `try` (an exception only skips that ID) or wraps
 * the whole loop in one `try` (the first exception ends the loop); the
 * `abort` flag selects the second.
 */
module ScriptOps {
  import opened Bus
  import Connection

  /** handler.ping for each ID inside its own `try`: the IDs that answered COMM_SUCCESS, in order. */
  function PingEach(t: Trace, ids: seq<int>): (r: (Trace, seq<int>))
    ensures r.0.answer == t.answer && r.0.online == t.online && r.0.caps == t.caps
    ensures |r.1| <= |ids|
  {
    if ids == [] then (t, [])
    else
      var (t1, found) := PingEach(t, ids[..|ids| - 1]);
      var (t2, reply) := Issue(t1, Ping(ids[|ids| - 1]));
      (t2, if Succeeded(reply) then found + [ids[|ids| - 1]] else found)
  }

  /** The ping loop pings every ID once, in order. */
  lemma {:induction false} PingEachLog(t: Trace, ids: seq<int>)
    requires t.online
    ensures PingEach(t, ids).0 == t.(log := t.log + Connection.Pings(ids))
  {
    if ids != [] {
      var n := |ids| - 1;
      PingEachLog(t, ids[..n]);
      assert Connection.Pings(ids) == Connection.Pings(ids[..n]) + [Ping(ids[n])];
    }
  }

  /** The ping loop keeps exactly the IDs whose ping reported COMM_SUCCESS. */
  lemma {:induction false} PingEachFound(t: Trace, ids: seq<int>, id: int)
    requires t.online
    ensures id in PingEach(t, ids).1 <==> exists k :: 0 <= k < |ids| && ids[k] == id && Succeeded(At(t, k))
  {
    if ids != [] {
      var n := |ids| - 1;
      var init := ids[..n];
      PingEachFound(t, init, id);
      PingEachLog(t, init);
      var (t1, found) := PingEach(t, init);
      var (t2, reply) := Issue(t1, Ping(ids[n]));
      assert PingEach(t, ids).1 == (if Succeeded(reply) then found + [ids[n]] else found);
      assert reply == At(t, n);
      SucceededSnoc(t, ids, id);
    }
  }

  /** An ID answered in ids exactly when it answered in all but the last, or is the last and answered. */
  lemma SucceededSnoc(t: Trace, ids: seq<int>, id: int)
    requires ids != []
    ensures (exists k :: 0 <= k < |ids| && ids[k] == id && Succeeded(At(t, k))) <==>
      (exists k :: 0 <= k < |ids| - 1 && ids[..|ids| - 1][k] == id && Succeeded(At(t, k))) ||
      (ids[|ids| - 1] == id && Succeeded(At(t, |ids| - 1)))
  {
    var n := |ids| - 1;
    var init := ids[..n];
    if exists k :: 0 <= k < |ids| && ids[k] == id && Succeeded(At(t, k)) {
      var k :| 0 <= k < |ids| && ids[k] == id && Succeeded(At(t, k));
      if k < n {
        assert init[k] == id;
      }
    }
    if exists k :: 0 <= k < n && init[k] == id && Succeeded(At(t, k)) {
      var k :| 0 <= k < n && init[k] == id && Succeeded(At(t, k));
      assert ids[k] == id;
    }
  }

  /** The responders are listed in the order of the ID list: ascending IDs give an ascending result. */
  lemma {:induction false} PingEachAscending(t: Trace, ids: seq<int>)
    requires t.online && Connection.StrictlyAscending(ids)
    ensures Connection.StrictlyAscending(PingEach(t, ids).1)
    ensures forall id :: id in PingEach(t, ids).1 ==> id in ids
  {
    if ids != [] {
      var n := |ids| - 1;
      var init := ids[..n];
      assert Connection.StrictlyAscending(init);
      PingEachAscending(t, init);
      var found := PingEach(t, init).1;
      forall j | 0 <= j < |found|
        ensures found[j] < ids[n] && found[j] in ids
      {
        assert found[j] in found;
        var k :| 0 <= k < |init| && init[k] == found[j];
        assert ids[k] == found[j];
      }
    }
  }

  /**
   * A scan of servos 1..6 pings 1, 2, ..., 6 once each and nothing else, and returns
   * the responders in ascending order: an ID is listed exactly when it is
   * in 1..6 and its own ping reported COMM_SUCCESS.
   */
  lemma ScanOneToSix(t: Trace, id: int)
    requires t.online
    ensures var (t1, found) := PingEach(t, [1, 2, 3, 4, 5, 6]);
      && t1 == t.(log := t.log + Connection.Pings([1, 2, 3, 4, 5, 6]))
      && Connection.StrictlyAscending(found)
      && (forall x :: x in found ==> 1 <= x <= 6)
      && (id in found <==> 1 <= id <= 6 && Succeeded(At(t, id - 1)))
  {
    var ids := [1, 2, 3, 4, 5, 6];
    assert forall k :: 0 <= k < |ids| ==> ids[k] == k + 1;
    PingEachLog(t, ids);
    PingEachAscending(t, ids);
    PingEachFound(t, ids, id);
    if 1 <= id <= 6 && Succeeded(At(t, id - 1)) {
      assert ids[id - 1] == id;
    }
  }

  /** The commands a loop sends to the IDs ids, one each. */
  function Cmds(mk: int -> Cmd, ids: seq<int>): (r: seq<Cmd>)
    ensures |r| == |ids| && forall k :: 0 <= k < |ids| ==> r[k] == mk(ids[k])
  {
    seq(|ids|, k requires 0 <= k < |ids| => mk(ids[k]))
  }

  /** How many of the first m replies after t report COMM_SUCCESS. */
  function Successes(t: Trace, m: nat): (r: nat)
    ensures r <= m
  {
    if m == 0 then 0 else Successes(t, m - 1) + (if Succeeded(At(t, m - 1)) then 1 else 0)
  }

  /** One of the first m replies after t is an exception. */
  predicate RaisedBefore(t: Trace, m: nat)
  {
    m > 0 && (RaisedBefore(t, m - 1) || At(t, m - 1).Raised?)
  }

  /** RaisedBefore(t, m) says that one of the first m replies is an exception. */
  lemma {:induction false} RaisedBeforeExists(t: Trace, m: nat)
    ensures RaisedBefore(t, m) <==> exists k :: 0 <= k < m && At(t, k).Raised?
  {
    if m > 0 {
      RaisedBeforeExists(t, m - 1);
    }
  }

  /** None of the replies lo..hi-1 after t is an exception. */
  predicate NoRaise(t: Trace, lo: nat, hi: nat)
    decreases hi
  {
    hi <= lo || (!At(t, hi - 1).Raised? && NoRaise(t, lo, hi - 1))
  }

  /** Every reply lo..hi-1 after t reports COMM_SUCCESS. */
  predicate AllSucceeded(t: Trace, lo: nat, hi: nat)
  {
    forall k :: lo <= k < hi ==> Succeeded(At(t, k))
  }

  lemma {:induction false} NoRaiseAll(t: Trace, lo: nat, hi: nat)
    ensures NoRaise(t, lo, hi) <==> forall k :: lo <= k < hi ==> !At(t, k).Raised?
    decreases hi
  {
    if lo < hi {
      NoRaiseAll(t, lo, hi - 1);
    }
  }

  lemma NoRaiseSplit(t: Trace, a: nat, b: nat, c: nat)
    requires a <= b <= c
    ensures NoRaise(t, a, c) <==> NoRaise(t, a, b) && NoRaise(t, b, c)
  {
    NoRaiseAll(t, a, b);
    NoRaiseAll(t, b, c);
    NoRaiseAll(t, a, c);
  }

  /** The replies after a trace extended by cmds are the replies after t, shifted by |cmds|. */
  lemma NoRaiseShift(t: Trace, cmds: seq<Cmd>, lo: nat, hi: nat)
    ensures NoRaise(t.(log := t.log + cmds), lo, hi) <==> NoRaise(t, |cmds| + lo, |cmds| + hi)
  {
    var t1 := t.(log := t.log + cmds);
    NoRaiseAll(t1, lo, hi);
    NoRaiseAll(t, |cmds| + lo, |cmds| + hi);
    forall k | lo <= k < hi ensures At(t1, k) == At(t, |cmds| + k) { }
    if NoRaise(t1, lo, hi) {
      forall k | |cmds| + lo <= k < |cmds| + hi ensures !At(t, k).Raised? {
        assert At(t1, k - |cmds|) == At(t, k);
      }
    }
  }

  /** Every reply after a trace extended by cmds succeeds exactly when the shifted replies after t do. */
  lemma AllSucceededShift(t: Trace, cmds: seq<Cmd>, lo: nat, hi: nat)
    ensures AllSucceeded(t.(log := t.log + cmds), lo, hi) <==> AllSucceeded(t, |cmds| + lo, |cmds| + hi)
  {
    var t1 := t.(log := t.log + cmds);
    if AllSucceeded(t, |cmds| + lo, |cmds| + hi) {
      forall k | lo <= k < hi ensures Succeeded(At(t1, k)) {
        assert At(t1, k) == At(t, |cmds| + k);
      }
    }
    if AllSucceeded(t1, lo, hi) {
      forall k | |cmds| + lo <= k < |cmds| + hi ensures Succeeded(At(t, k)) {
        assert At(t1, k - |cmds|) == At(t, k);
      }
    }
  }

  /** The j-th reply after a trace extended by cmds is the (|cmds| + j)-th reply after t. */
  lemma AtShift(t: Trace, cmds: seq<Cmd>, j: nat)
    ensures At(t.(log := t.log + cmds), j) == At(t, |cmds| + j)
  {
  }

  /** Extending a trace by a then by b extends it by a + b. */
  lemma ExtendTwice(t: Trace, a: seq<Cmd>, b: seq<Cmd>)
    ensures var t1 := t.(log := t.log + a); t1.(log := t1.log + b) == t.(log := t.log + (a + b))
  {
    assert t.log + a + b == t.log + (a + b);
  }

  /** No exception among n + m replies: none among the first n, and none among the m after them. */
  lemma NoRaiseThen(t: Trace, cmds: seq<Cmd>, n: nat, m: nat, total: nat)
    requires |cmds| == n && total == n + m
    ensures NoRaise(t, 0, total) <==> NoRaise(t, 0, n) && NoRaise(t.(log := t.log + cmds), 0, m)
  {
    NoRaiseSplit(t, 0, n, total);
    NoRaiseShift(t, cmds, 0, m);
  }

  /**
   * Send mk(id) for each ID and count the COMM_SUCCESS results:
   * (trace, count, whether a call raised).  With abort set, the first
   * exception ends the loop.
   */
  function CountEach(t: Trace, ids: seq<int>, mk: int -> Cmd, abort: bool): (r: (Trace, nat, bool))
    ensures r.1 <= |ids|
    ensures r.0.answer == t.answer && r.0.online == t.online && r.0.caps == t.caps
    ensures |t.log| <= |r.0.log| <= |t.log| + |ids|
  {
    if ids == [] then (t, 0, false)
    else
      var (t1, count, raised) := CountEach(t, ids[..|ids| - 1], mk, abort);
      if abort && raised then (t1, count, raised)
      else
        var (t2, reply) := Issue(t1, mk(ids[|ids| - 1]));
        (t2, count + (if Succeeded(reply) then 1 else 0), raised || reply.Raised?)
  }

  /**
   * The counting loop sends the commands for a prefix of the IDs, in
   * order: all of them unless abort is set and a call raised.
   */
  lemma {:induction false} CountEachProperties(t: Trace, ids: seq<int>, mk: int -> Cmd, abort: bool)
    requires t.online
    ensures var (t1, _, raised) := CountEach(t, ids, mk, abort);
      var m := |t1.log| - |t.log|;
      && t1.log == t.log + Cmds(mk, ids[..m])
      && (!abort || !raised ==> m == |ids|)
  {
    if ids != [] {
      var n := |ids| - 1;
      var init := ids[..n];
      CountEachProperties(t, init, mk, abort);
      var (t1, count, raised) := CountEach(t, init, mk, abort);
      var m := |t1.log| - |t.log|;
      assert ids[..m] == init[..m];
      if !(abort && raised) {
        assert m == n;
        assert ids[..n + 1] == ids;
        assert Cmds(mk, ids) == Cmds(mk, init[..m]) + [mk(ids[n])];
      }
    }
  }

  /**
   * The loop reports an exception exactly when one of the commands it sent
   * raised; an aborting loop stops right after the first one.
   */
  lemma {:induction false} CountEachRaised(t: Trace, ids: seq<int>, mk: int -> Cmd, abort: bool)
    requires t.online
    ensures var (t1, _, raised) := CountEach(t, ids, mk, abort);
      var m := |t1.log| - |t.log|;
      && (raised <==> RaisedBefore(t, m))
      && (abort && raised ==> 0 < m && At(t, m - 1).Raised? && !RaisedBefore(t, m - 1))
  {
    if ids != [] {
      var n := |ids| - 1;
      var init := ids[..n];
      CountEachRaised(t, init, mk, abort);
      var (t1, count, raised) := CountEach(t, init, mk, abort);
      if !(abort && raised) {
        var (t2, reply) := Issue(t1, mk(ids[n]));
        assert reply == At(t, |t1.log| - |t.log|);
        assert CountEach(t, ids, mk, abort) == (t2, count + (if Succeeded(reply) then 1 else 0), raised || reply.Raised?);
      }
    }
  }

  /** The count is the number of COMM_SUCCESS replies among the commands sent. */
  lemma {:induction false} CountEachCount(t: Trace, ids: seq<int>, mk: int -> Cmd, abort: bool)
    requires t.online
    ensures var (t1, count, _) := CountEach(t, ids, mk, abort);
      count == Successes(t, |t1.log| - |t.log|)
  {
    if ids != [] {
      var n := |ids| - 1;
      var init := ids[..n];
      CountEachCount(t, init, mk, abort);
      var (t1, count, raised) := CountEach(t, init, mk, abort);
      if !(abort && raised) {
        var (t2, reply) := Issue(t1, mk(ids[n]));
        assert reply == At(t, |t1.log| - |t.log|);
        assert CountEach(t, ids, mk, abort) == (t2, count + (if Succeeded(reply) then 1 else 0), raised || reply.Raised?);
      }
    }
  }

  /**
   * A counting loop inside one `try`: it sends mk(ids[k]) for k = 0, 1, ...
   * and nothing else, completes exactly when none of the |ids| calls
   * raised, and then has counted every COMM_SUCCESS reply.
   */
  lemma AbortingCount(t: Trace, ids: seq<int>, mk: int -> Cmd)
    requires t.online
    ensures var (t1, count, raised) := CountEach(t, ids, mk, true);
      var m := |t1.log| - |t.log|;
      && 0 <= m <= |ids|
      && t1.log == t.log + Cmds(mk, ids)[..m]
      && (!raised <==> NoRaise(t, 0, |ids|))
      && (!raised ==> m == |ids| && count == Successes(t, m))
  {
    CountEachProperties(t, ids, mk, true);
    CountEachRaised(t, ids, mk, true);
    CountEachCount(t, ids, mk, true);
    var (t1, count, raised) := CountEach(t, ids, mk, true);
    var m := |t1.log| - |t.log|;
    RaisedBeforeExists(t, m);
    NoRaiseAll(t, 0, |ids|);
    assert Cmds(mk, ids[..m]) == Cmds(mk, ids)[..m];
  }

  /**
   * handler.ReadPos for each ID, storing the position of every successful
   * read: (trace, positions, whether a call raised).  With abort set, the
   * first exception ends the loop.
   */
  function ReadEach(t: Trace, ids: seq<int>, abort: bool): (r: (Trace, map<int, int>, bool))
    ensures r.0.answer == t.answer && r.0.online == t.online && r.0.caps == t.caps
    ensures |t.log| <= |r.0.log| <= |t.log| + |ids|
  {
    if ids == [] then (t, map[], false)
    else
      var (t1, positions, raised) := ReadEach(t, ids[..|ids| - 1], abort);
      if abort && raised then (t1, positions, raised)
      else
        var id := ids[|ids| - 1];
        var (t2, reply) := Issue(t1, ReadPos(id));
        (t2, if Succeeded(reply) then positions[id := reply.value] else positions, raised || reply.Raised?)
  }

  predicate Distinct(ids: seq<int>)
  {
    forall j, k :: 0 <= j < k < |ids| ==> ids[j] != ids[k]
  }

  /**
   * The read loop sends the same commands, and stops at the same exception,
   * as the counting loop sending ReadPos.
   */
  lemma {:induction false} ReadEachTrace(t: Trace, ids: seq<int>, abort: bool)
    ensures var (t1, _, raised) := ReadEach(t, ids, abort);
      var (t2, _, raised2) := CountEach(t, ids, k => ReadPos(k), abort);
      t1 == t2 && raised == raised2
  {
    if ids != [] {
      ReadEachTrace(t, ids[..|ids| - 1], abort);
    }
  }

  /**
   * positions holds exactly the IDs among the first m whose read succeeded,
   * each with the position its reply reported.
   */
  ghost predicate PositionsOf(t: Trace, ids: seq<int>, m: nat, positions: map<int, int>)
    requires m <= |ids|
  {
    && (forall id :: id in positions ==> id in ids[..m])
    && (forall k :: 0 <= k < m ==>
          (ids[k] in positions <==> Succeeded(At(t, k)))
          && (ids[k] in positions ==> positions[ids[k]] == At(t, k).value))
  }

  /** One more read keeps PositionsOf, for an ID not read before. */
  lemma PositionsOfStep(t: Trace, ids: seq<int>, n: nat, positions: map<int, int>)
    requires n < |ids| && PositionsOf(t, ids[..n], n, positions)
    requires forall k :: 0 <= k < n ==> ids[k] != ids[n]
    ensures var reply := At(t, n);
      PositionsOf(t, ids, n + 1, if Succeeded(reply) then positions[ids[n] := reply.value] else positions)
  {
    var reply := At(t, n);
    var p2 := if Succeeded(reply) then positions[ids[n] := reply.value] else positions;
    assert ids[..n][..n] == ids[..n];
    forall id | id in p2 ensures id in ids[..n + 1] {
      if id != ids[n] {
        assert id in ids[..n];
        var j :| 0 <= j < n && ids[..n][j] == id;
        assert ids[..n + 1][j] == id;
      } else {
        assert ids[..n + 1][n] == id;
      }
    }
    forall k | 0 <= k < n + 1
      ensures (ids[k] in p2 <==> Succeeded(At(t, k))) && (ids[k] in p2 ==> p2[ids[k]] == At(t, k).value)
    {
      if k < n {
        assert ids[..n][k] == ids[k];
      }
    }
  }

  /** PositionsOf over a prefix of the IDs only looks at that prefix. */
  lemma PositionsOfPrefix(t: Trace, ids: seq<int>, n: nat, m: nat, positions: map<int, int>)
    requires m <= n <= |ids| && PositionsOf(t, ids[..n], m, positions)
    ensures PositionsOf(t, ids, m, positions)
  {
    assert ids[..n][..m] == ids[..m];
    forall k | 0 <= k < m ensures ids[..n][k] == ids[k] { }
  }

  /** A read loop that does not stop early reads every ID. */
  lemma {:induction false} ReadEachLength(t: Trace, ids: seq<int>, abort: bool)
    requires t.online
    ensures var (t1, _, raised) := ReadEach(t, ids, abort);
      !abort || !raised ==> |t1.log| == |t.log| + |ids|
  {
    if ids != [] {
      ReadEachLength(t, ids[..|ids| - 1], abort);
    }
  }

  /**
   * The map the read loop builds, for distinct IDs, is PositionsOf the
   * reads it issued.
   */
  lemma {:induction false} ReadEachPositions(t: Trace, ids: seq<int>, abort: bool)
    requires t.online && Distinct(ids)
    ensures var (t1, positions, _) := ReadEach(t, ids, abort);
      var m := |t1.log| - |t.log|;
      0 <= m <= |ids| && PositionsOf(t, ids, m, positions)
  {
    if ids != [] {
      var n := |ids| - 1;
      var init := ids[..n];
      assert Distinct(init) by {
        forall j, k | 0 <= j < k < |init| ensures init[j] != init[k] {
          assert init[j] == ids[j] && init[k] == ids[k];
        }
      }
      ReadEachPositions(t, init, abort);
      ReadEachLength(t, init, abort);
      var (t1, positions, raised) := ReadEach(t, init, abort);
      var m := |t1.log| - |t.log|;
      PositionsOfPrefix(t, ids, n, m, positions);
      if abort && raised {
        assert ReadEach(t, ids, abort) == (t1, positions, raised);
      } else {
        assert m == n;
        var (t2, reply) := Issue(t1, ReadPos(ids[n]));
        assert reply == At(t, n) && |t2.log| == |t.log| + n + 1;
        var p2 := if Succeeded(reply) then positions[ids[n] := reply.value] else positions;
        assert ReadEach(t, ids, abort) == (t2, p2, raised || reply.Raised?);
        PositionsOfStep(t, ids, n, positions);
      }
    }
  }

  /**
   * A read loop inside one `try`: it reads ids[k] for k = 0, 1, ... and
   * nothing else, completes exactly when none of the |ids| reads raised,
   * and for distinct IDs keeps exactly the successful positions.
   */
  lemma AbortingRead(t: Trace, ids: seq<int>)
    requires t.online && Distinct(ids)
    ensures var (t1, positions, raised) := ReadEach(t, ids, true);
      var m := |t1.log| - |t.log|;
      && 0 <= m <= |ids|
      && t1.log == t.log + Cmds(k => ReadPos(k), ids)[..m]
      && (!raised <==> NoRaise(t, 0, |ids|))
      && (!raised ==> m == |ids|)
      && PositionsOf(t, ids, m, positions)
  {
    ReadEachTrace(t, ids, true);
    AbortingCount(t, ids, k => ReadPos(k));
    ReadEachPositions(t, ids, true);
  }

  /** Once the aborting counting loop has stopped, the remaining IDs change nothing. */
  lemma {:induction false} CountEachAfterAbort(t: Trace, ids: seq<int>, mk: int -> Cmd, n: nat)
    requires n <= |ids| && CountEach(t, ids[..n], mk, true).2
    ensures CountEach(t, ids, mk, true) == CountEach(t, ids[..n], mk, true)
    decreases |ids|
  {
    if n < |ids| {
      var init := ids[..|ids| - 1];
      assert init[..n] == ids[..n];
      CountEachAfterAbort(t, init, mk, n);
    } else {
      assert ids[..n] == ids;
    }
  }

  /** Once the aborting read loop has stopped, the remaining IDs change nothing. */
  lemma {:induction false} ReadEachAfterAbort(t: Trace, ids: seq<int>, n: nat)
    requires n <= |ids| && ReadEach(t, ids[..n], true).2
    ensures ReadEach(t, ids, true) == ReadEach(t, ids[..n], true)
    decreases |ids|
  {
    if n < |ids| {
      var init := ids[..|ids| - 1];
      assert init[..n] == ids[..n];
      ReadEachAfterAbort(t, init, n);
    } else {
      assert ids[..n] == ids;
    }
  }

  /** The ping loop on the handler. */
  method PingLoop(handler: Handler, ids: seq<int>) returns (found: seq<int>)
    modifies handler
    ensures (handler.State(), found) == PingEach(old(handler.State()), ids)
  {
    ghost var t0 := handler.State();
    found := [];
    var i := 0;
    while i < |ids|
      invariant 0 <= i <= |ids|
      invariant (handler.State(), found) == PingEach(t0, ids[..i])
    {
      var reply := handler.Send(Ping(ids[i]));
      if Succeeded(reply) {
        found := found + [ids[i]];
      }
      assert ids[..i + 1][..i] == ids[..i];
      i := i + 1;
    }
    assert ids[..i] == ids;
  }

  /** The counting loop on the handler. */
  method CountLoop(handler: Handler, ids: seq<int>, mk: int -> Cmd, abort: bool) returns (count: nat, raised: bool)
    modifies handler
    ensures (handler.State(), count, raised) == CountEach(old(handler.State()), ids, mk, abort)
  {
    ghost var t0 := handler.State();
    count, raised := 0, false;
    var i := 0;
    while i < |ids| && !(abort && raised)
      invariant 0 <= i <= |ids|
      invariant (handler.State(), count, raised) == CountEach(t0, ids[..i], mk, abort)
    {
      var reply := handler.Send(mk(ids[i]));
      if Succeeded(reply) {
        count := count + 1;
      }
      raised := raised || reply.Raised?;
      assert ids[..i + 1][..i] == ids[..i];
      i := i + 1;
    }
    if i < |ids| {
      CountEachAfterAbort(t0, ids, mk, i);
    } else {
      assert ids[..i] == ids;
    }
  }

  /** The position-read loop on the handler. */
  method ReadLoop(handler: Handler, ids: seq<int>, abort: bool) returns (positions: map<int, int>, raised: bool)
    modifies handler
    ensures (handler.State(), positions, raised) == ReadEach(old(handler.State()), ids, abort)
  {
    ghost var t0 := handler.State();
    positions, raised := map[], false;
    var i := 0;
    while i < |ids| && !(abort && raised)
      invariant 0 <= i <= |ids|
      invariant (handler.State(), positions, raised) == ReadEach(t0, ids[..i], abort)
    {
      var reply := handler.Send(ReadPos(ids[i]));
      if Succeeded(reply) {
        positions := positions[ids[i] := reply.value];
      }
      raised := raised || reply.Raised?;
      assert ids[..i + 1][..i] == ids[..i];
      i := i + 1;
    }
    if i < |ids| {
      ReadEachAfterAbort(t0, ids, i);
    } else {
      assert ids[..i] == ids;
    }
  }

  /** Register 40 doubles as the torque switch and the calibration trigger. */
  const TORQUE_ENABLE := 40
  /** Writing 128 at register 40 makes the servo take its current position as 2048. */
  const CALIBRATE_MIDDLE_VALUE := 128

  /**
   * Middle-value calibration of one servo: unlock the EEPROM, write 128 at
   * register 40, lock again: (trace, calibrated, whether a call raised).
   * A failed unlock stops at once; a failed write still locks; a lock that
   * merely fails does not undo the calibration.
   */
  function CalibrateMiddle(t: Trace, id: int): (r: (Trace, bool, bool))
    ensures r.0.answer == t.answer && r.0.online == t.online && r.0.caps == t.caps
    ensures r.1 ==> !r.2
  {
    var (t1, unlock) := Issue(t, Unlock(id));
    if !Succeeded(unlock) then (t1, false, unlock.Raised?)
    else
      var (t2, write) := Issue(t1, Write1(id, TORQUE_ENABLE, CALIBRATE_MIDDLE_VALUE));
      if write.Raised? then (t2, false, true)
      else
        var (t3, lock) := Issue(t2, Lock(id));
        (t3, write.result == 0 && !lock.Raised?, lock.Raised?)
  }

  /**
   * The three paths of one calibration: a failed unlock sends nothing
   * more; a write that raises leaves the EEPROM unlocked; otherwise Lock
   * follows, and the servo counts as calibrated exactly when unlock and
   * write succeeded and Lock did not raise.
   */
  lemma CalibrateMiddleProperties(t: Trace, id: int)
    requires t.online
    ensures var (t1, ok, raised) := CalibrateMiddle(t, id);
      && (!Succeeded(At(t, 0)) ==>
            t1.log == t.log + [Unlock(id)] && !ok && (raised <==> At(t, 0).Raised?))
      && (Succeeded(At(t, 0)) && At(t, 1).Raised? ==>
            t1.log == t.log + [Unlock(id), Write1(id, 40, 128)] && !ok && raised)
      && (Succeeded(At(t, 0)) && !At(t, 1).Raised? ==>
            && t1.log == t.log + [Unlock(id), Write1(id, 40, 128), Lock(id)]
            && (ok <==> Succeeded(At(t, 1)) && !At(t, 2).Raised?)
            && (raised <==> At(t, 2).Raised?))
  {
    var (t1, _) := Issue(t, Unlock(id));
    assert At(t1, 0) == At(t, 1);
    var (t2, _) := Issue(t1, Write1(id, 40, 128));
    assert At(t2, 0) == At(t, 2);
  }

  /** A command of a calibration pass over ids. */
  predicate CalibrationCmd(c: Cmd, ids: seq<int>)
  {
    (c.Unlock? || c.Lock? || (c.Write1? && c.address == 40 && c.value == 128)) && c.id in ids
  }

  /**
   * Calibrate each ID in turn, counting the calibrated ones:
   * (trace, count, whether a call raised).  With abort set, the first
   * exception ends the loop.
   */
  function CalibrateEach(t: Trace, ids: seq<int>, abort: bool): (r: (Trace, nat, bool))
    ensures r.0.answer == t.answer && r.0.online == t.online && r.0.caps == t.caps
    ensures r.1 <= |ids|
  {
    if ids == [] then (t, 0, false)
    else
      var (t1, count, raised) := CalibrateEach(t, ids[..|ids| - 1], abort);
      if abort && raised then (t1, count, raised)
      else
        var (t2, ok, raised2) := CalibrateMiddle(t1, ids[|ids| - 1]);
        (t2, count + (if ok then 1 else 0), raised || raised2)
  }

  /**
   * A calibration pass only extends the log, and every command it sends is
   * an unlock, the calibration write or a lock addressed to a listed ID.
   */
  lemma {:induction false} CalibrateEachCommands(t: Trace, ids: seq<int>, abort: bool)
    requires t.online
    ensures var t1 := CalibrateEach(t, ids, abort).0;
      && |t.log| <= |t1.log| && t1.log[..|t.log|] == t.log
      && forall j :: |t.log| <= j < |t1.log| ==> CalibrationCmd(t1.log[j], ids)
  {
    if ids != [] {
      var n := |ids| - 1;
      var init := ids[..n];
      CalibrateEachCommands(t, init, abort);
      var (t1, count, raised) := CalibrateEach(t, init, abort);
      forall c | CalibrationCmd(c, init) ensures CalibrationCmd(c, ids) {
        var k :| 0 <= k < |init| && init[k] == c.id;
        assert ids[k] == c.id;
      }
      if !(abort && raised) {
        CalibrateMiddleProperties(t1, ids[n]);
        var t2 := CalibrateEach(t, ids, abort).0;
        assert t2.log[..|t1.log|] == t1.log;
        assert t2.log[..|t.log|] == t1.log[..|t.log|];
        forall j | |t1.log| <= j < |t2.log| ensures CalibrationCmd(t2.log[j], ids) {
          assert t2.log[j].id == ids[n];
        }
      }
    }
  }

  /**
   * Log entry j of T records a completed calibration: a Lock that did not
   * raise, right after the calibration write, which answered COMM_SUCCESS.
   */
  predicate CalibratedAt(T: Trace, j: nat)
    requires j < |T.log|
  {
    0 < j && T.log[j].Lock? && Succeeded(T.answer(j - 1)) && !T.answer(j).Raised?
  }

  /** The number of completed calibrations recorded at log entries lo..hi-1. */
  function CalibratedLocks(T: Trace, lo: nat, hi: nat): (r: nat)
    requires lo <= hi <= |T.log|
    ensures r <= hi - lo
    decreases hi
  {
    if hi == lo then 0 else CalibratedLocks(T, lo, hi - 1) + (if CalibratedAt(T, hi - 1) then 1 else 0)
  }

  /** One calibration records one completed calibration exactly when it reports success. */
  lemma CalibrateMiddleCount(t: Trace, id: int, T: Trace, lo: nat)
    requires t.online && T.answer == t.answer && lo <= |t.log|
    requires var t1 := CalibrateMiddle(t, id).0; |t1.log| <= |T.log| && T.log[..|t1.log|] == t1.log
    ensures var (t1, ok, _) := CalibrateMiddle(t, id);
      && |t.log| <= |t1.log|
      && CalibratedLocks(T, lo, |t1.log|) == CalibratedLocks(T, lo, |t.log|) + (if ok then 1 else 0)
  {
    CalibrateMiddleProperties(t, id);
    var (t1, ok, _) := CalibrateMiddle(t, id);
    var m := |t.log|;
    assert T.log[m] == t1.log[m] == Unlock(id);
    assert CalibratedLocks(T, lo, m + 1) == CalibratedLocks(T, lo, m);
    if !Succeeded(At(t, 0)) {
      assert |t1.log| == m + 1 && !ok;
    } else {
      assert T.log[m + 1] == t1.log[m + 1] == Write1(id, 40, 128);
      assert CalibratedLocks(T, lo, m + 2) == CalibratedLocks(T, lo, m);
      if At(t, 1).Raised? {
        assert |t1.log| == m + 2 && !ok;
      } else {
        assert T.log[m + 2] == t1.log[m + 2] == Lock(id);
        assert CalibratedAt(T, m + 2) == ok;
        assert |t1.log| == m + 3;
      }
    }
  }

  /**
   * The count of a calibration pass is the number of completed
   * calibrations its commands record: one per servo whose unlock and write
   * succeeded and whose Lock did not raise.  T is any later trace, so the
   * statement survives whatever is sent afterwards.
   */
  lemma {:induction false} CalibrateEachCount(t: Trace, ids: seq<int>, abort: bool, T: Trace)
    requires t.online && T.answer == t.answer
    requires var t1 := CalibrateEach(t, ids, abort).0; |t1.log| <= |T.log| && T.log[..|t1.log|] == t1.log
    ensures |t.log| <= |CalibrateEach(t, ids, abort).0.log|
    ensures var (t1, count, _) := CalibrateEach(t, ids, abort);
      count == CalibratedLocks(T, |t.log|, |t1.log|)
  {
    if ids != [] {
      var n := |ids| - 1;
      var init := ids[..n];
      var (t1, count, raised) := CalibrateEach(t, init, abort);
      if !(abort && raised) {
        CalibrateMiddleProperties(t1, ids[n]);
        var t2 := CalibrateMiddle(t1, ids[n]).0;
        assert T.log[..|t1.log|] == t2.log[..|t1.log|] == t1.log;
        CalibrateEachCount(t, init, abort, T);
        CalibrateMiddleCount(t1, ids[n], T, |t.log|);
      } else {
        CalibrateEachCount(t, init, abort, T);
      }
    }
  }

  /** Once an aborting calibration pass has stopped, the remaining IDs change nothing. */
  lemma {:induction false} CalibrateEachAfterAbort(t: Trace, ids: seq<int>, n: nat)
    requires n <= |ids| && CalibrateEach(t, ids[..n], true).2
    ensures CalibrateEach(t, ids, true) == CalibrateEach(t, ids[..n], true)
    decreases |ids|
  {
    if n < |ids| {
      var init := ids[..|ids| - 1];
      assert init[..n] == ids[..n];
      CalibrateEachAfterAbort(t, init, n);
    } else {
      assert ids[..n] == ids;
    }
  }

  /** One calibration on the handler. */
  method CalibrateStep(handler: Handler, id: int) returns (ok: bool, raised: bool)
    modifies handler
    ensures (handler.State(), ok, raised) == CalibrateMiddle(old(handler.State()), id)
  {
    var unlock := handler.Send(Unlock(id));
    if !Succeeded(unlock) {
      return false, unlock.Raised?;
    }
    var write := handler.Send(Write1(id, TORQUE_ENABLE, CALIBRATE_MIDDLE_VALUE));
    if write.Raised? {
      return false, true;
    }
    var lock := handler.Send(Lock(id));
    ok, raised := write.result == 0 && !lock.Raised?, lock.Raised?;
  }

  /** The calibration loop on the handler. */
  method CalibrateLoop(handler: Handler, ids: seq<int>, abort: bool) returns (count: nat, raised: bool)
    modifies handler
    ensures (handler.State(), count, raised) == CalibrateEach(old(handler.State()), ids, abort)
  {
    ghost var t0 := handler.State();
    count, raised := 0, false;
    var i := 0;
    while i < |ids| && !(abort && raised)
      invariant 0 <= i <= |ids|
      invariant (handler.State(), count, raised) == CalibrateEach(t0, ids[..i], abort)
    {
      var ok, raised2 := CalibrateStep(handler, ids[i]);
      assert ids[..i + 1][..i] == ids[..i] && ids[..i + 1][i] == ids[i];
      assert CalibrateEach(t0, ids[..i + 1], abort)
        == (handler.State(), count + (if ok then 1 else 0), raised || raised2);
      if ok {
        count := count + 1;
      }
      raised := raised || raised2;
      i := i + 1;
    }
    if i < |ids| {
      CalibrateEachAfterAbort(t0, ids, i);
    } else {
      assert ids[..i] == ids;
    }
  }

  predicate Sorted(s: seq<int>)
  {
    forall j, k :: 0 <= j < k < |s| ==> s[j] <= s[k]
  }

  /** Insert x into a sorted list before its first larger element. */
  function Insert(x: int, s: seq<int>): (r: seq<int>)
    ensures |r| == |s| + 1
  {
    if s == [] || x <= s[0] then [x] + s else [s[0]] + Insert(x, s[1..])
  }

  lemma {:induction false} InsertMultiset(x: int, s: seq<int>)
    ensures multiset(Insert(x, s)) == multiset(s) + multiset{x}
  {
    if !(s == [] || x <= s[0]) {
      assert s == [s[0]] + s[1..];
      InsertMultiset(x, s[1..]);
    }
  }

  /** Every element of Insert(x, s) is an element of s or x itself. */
  lemma InsertElements(x: int, s: seq<int>, y: int)
    requires y in Insert(x, s)
    ensures y == x || y in s
  {
    InsertMultiset(x, s);
    assert y in multiset(Insert(x, s));
  }

  lemma {:induction false} InsertSorted(x: int, s: seq<int>)
    requires Sorted(s)
    ensures Sorted(Insert(x, s))
  {
    if !(s == [] || x <= s[0]) {
      var tail := s[1..];
      InsertSorted(x, tail);
      var rest := Insert(x, tail);
      var r := [s[0]] + rest;
      assert Insert(x, s) == r;
      forall j, k | 0 <= j < k < |r| ensures r[j] <= r[k] {
        assert r[k] == rest[k - 1];
        if j > 0 {
          assert r[j] == rest[j - 1];
        } else {
          InsertElements(x, tail, rest[k - 1]);
        }
      }
    }
  }

  /** Python sorted() on a list of IDs. */
  function Sort(s: seq<int>): (r: seq<int>)
    ensures |r| == |s|
  {
    if s == [] then [] else Insert(s[|s| - 1], Sort(s[..|s| - 1]))
  }

  /** sorted() returns an ascending permutation of its argument. */
  lemma {:induction false} SortProperties(s: seq<int>)
    ensures Sorted(Sort(s)) && multiset(Sort(s)) == multiset(s)
  {
    if s != [] {
      var n := |s| - 1;
      SortProperties(s[..n]);
      InsertSorted(s[n], Sort(s[..n]));
      InsertMultiset(s[n], Sort(s[..n]));
      assert s == s[..n] + [s[n]];
    }
  }
}
