/**
 * The ID-change core of the factory calibration GUI: a worker per port
 * that scans IDs 1..9, reports changes of the servo list, and changes a
 * servo's ID (ping, unlock the EEPROM, write the new ID at register 5,
 * ping the new ID, lock again); and the panel rules that enable the six
 * target-ID buttons and update the servo list after a change.
 */
module FactoryTool {
  import opened Wrappers
  import opened Bus
  import opened ScriptOps
  import Connection

  /** SMS_STS_ID: the EEPROM register holding the servo ID. */
  const ID_ADDRESS := 5
  /** range(1, 10): the IDs the worker scans. */
  const SCAN_IDS: seq<int> := Connection.IdRange(1, 10)

  /** ping_servo: True exactly when the ping reported COMM_SUCCESS; an exception gives False. */
  function PingServoSpec(t: Trace, id: int): (r: (Trace, bool))
  {
    var (t1, reply) := Issue(t, Ping(id));
    (t1, Succeeded(reply))
  }

  /** scan_servos: nothing while disconnected, else the IDs 1..9 that answer. */
  function ScanSpec(t: Trace, connected: bool): (r: (Trace, seq<int>))
  {
    if !connected then (t, []) else PingEach(t, SCAN_IDS)
  }

  /**
   * A disconnected worker sends nothing and finds nothing.  A connected
   * one pings 1, 2, ..., 9 once each and lists, in ascending order, exactly
   * the IDs whose ping reported COMM_SUCCESS.
   */
  lemma ScanServosProperties(t: Trace, connected: bool, id: int)
    requires t.online
    ensures var (t1, found) := ScanSpec(t, connected);
      && (!connected ==> t1 == t && found == [])
      && (connected ==>
            && t1 == t.(log := t.log + Connection.Pings(SCAN_IDS))
            && Connection.StrictlyAscending(found)
            && (id in found <==> 1 <= id <= 9 && Succeeded(At(t, id - 1))))
  {
    if connected {
      PingEachLog(t, SCAN_IDS);
      PingEachAscending(t, SCAN_IDS);
      PingEachFound(t, SCAN_IDS, id);
      if 1 <= id <= 9 && Succeeded(At(t, id - 1)) {
        assert SCAN_IDS[id - 1] == id;
      }
    }
  }

  /** The commands of a complete ID change, in order. */
  function IdChangeCmds(oldId: int, newId: int): (r: seq<Cmd>)
  {
    [Ping(oldId), Unlock(oldId), Write1(oldId, ID_ADDRESS, newId), Ping(newId), Lock(newId)]
  }

  /**
   * execute_id_change: each of the first four steps must report
   * COMM_SUCCESS or the change fails at once; the final lock is sent but
   * only an exception from it fails the change.
   */
  function ExecuteIdChangeSpec(t: Trace, connected: bool, oldId: int, newId: int): (r: (Trace, bool))
  {
    if !connected then (t, false)
    else
      var (t1, ping) := Issue(t, Ping(oldId));
      if !Succeeded(ping) then (t1, false)
      else
        var (t2, unlock) := Issue(t1, Unlock(oldId));
        if !Succeeded(unlock) then (t2, false)
        else
          var (t3, write) := Issue(t2, Write1(oldId, ID_ADDRESS, newId));
          if !Succeeded(write) then (t3, false)
          else
            var (t4, verify) := Issue(t3, Ping(newId));
            if !Succeeded(verify) then (t4, false)
            else
              var (t5, lock) := Issue(t4, Lock(newId));
              (t5, !lock.Raised?)
  }

  /**
   * A disconnected worker sends nothing and fails.  A connected one sends
   * a prefix of ping(old), unlock(old), write(old, 5, new), ping(new),
   * lock(new): it goes on exactly while each step reports COMM_SUCCESS, so
   * it stops early only after a failed step and then sends no lock; the
   * change succeeds exactly when all five were sent and the lock did not
   * raise, whatever result the lock reported.
   */
  lemma ExecuteIdChangeProperties(t: Trace, connected: bool, oldId: int, newId: int)
    requires t.online
    ensures var (t1, ok) := ExecuteIdChangeSpec(t, connected, oldId, newId);
      var m := |t1.log| - |t.log|;
      && (!connected ==> t1 == t && !ok)
      && (connected ==>
            && 1 <= m <= 5
            && t1.log == t.log + IdChangeCmds(oldId, newId)[..m]
            && (forall k :: 0 <= k < m - 1 ==> Succeeded(At(t, k)))
            && (m < 5 ==> !Succeeded(At(t, m - 1)) && !ok)
            && (ok <==> m == 5 && Succeeded(At(t, 3)) && !At(t, 4).Raised?))
  {
    if connected {
      var cmds := IdChangeCmds(oldId, newId);
      var t1 := t.(log := t.log + cmds[..1]);
      var t2 := t.(log := t.log + cmds[..2]);
      var t3 := t.(log := t.log + cmds[..3]);
      var t4 := t.(log := t.log + cmds[..4]);
      var t5 := t.(log := t.log + cmds[..5]);
      assert t1 == Issue(t, Ping(oldId)).0;
      assert t2 == Issue(t1, Unlock(oldId)).0 by { assert cmds[..2] == cmds[..1] + [Unlock(oldId)]; }
      assert t3 == Issue(t2, Write1(oldId, ID_ADDRESS, newId)).0 by { assert cmds[..3] == cmds[..2] + [cmds[2]]; }
      assert t4 == Issue(t3, Ping(newId)).0 by { assert cmds[..4] == cmds[..3] + [cmds[3]]; }
      assert t5 == Issue(t4, Lock(newId)).0 by { assert cmds[..5] == cmds[..4] + [cmds[4]]; }
    }
  }

  /** What a scan adds to and removes from the servo list. */
  function Changes(oldServos: seq<int>, newServos: seq<int>): (r: (set<int>, set<int>))
    ensures var (added, removed) := r;
      && added * removed == {}
      && (forall x :: x in added <==> x in newServos && x !in oldServos)
      && (forall x :: x in removed <==> x in oldServos && x !in newServos)
  {
    (set x | x in newServos && x !in oldServos, set x | x in oldServos && x !in newServos)
  }

  /** Applying the changes to the old list's IDs gives exactly the new list's IDs. */
  lemma ChangesApply(oldServos: seq<int>, newServos: seq<int>)
    ensures var (added, removed) := Changes(oldServos, newServos);
      forall x :: x in newServos <==> (x in oldServos || x in added) && x !in removed
  {
  }

  /** s without its first occurrence of x (Python list.remove), or s when x is absent. */
  function RemoveFirst(s: seq<int>, x: int): (r: seq<int>)
  {
    if s == [] then []
    else if s[0] == x then s[1..]
    else [s[0]] + RemoveFirst(s[1..], x)
  }

  /** list.remove drops one x and keeps everything else: multiset(s) - {x}. */
  lemma {:induction false} RemoveFirstMultiset(s: seq<int>, x: int)
    ensures multiset(RemoveFirst(s, x)) == multiset(s) - multiset{x}
  {
    if s != [] {
      assert s == [s[0]] + s[1..];
      if s[0] != x {
        RemoveFirstMultiset(s[1..], x);
      }
    }
  }

  /** on_id_changed's list edit before sorting: remove old if listed, append new unless listed. */
  function Updated(servos: seq<int>, oldId: int, newId: int): (r: seq<int>)
  {
    var removed := if oldId in servos then RemoveFirst(servos, oldId) else servos;
    if newId !in removed then removed + [newId] else removed
  }

  /** on_id_changed's list update: the edited list, sorted. */
  function AfterIdChange(servos: seq<int>, oldId: int, newId: int): (r: seq<int>)
  {
    Sort(Updated(servos, oldId, newId))
  }

  /** Every ID occurs at most once. */
  ghost predicate Single(s: seq<int>)
  {
    forall y :: multiset(s)[y] <= 1
  }

  /** The edited list counts oldId zero times unless it is newId, newId once, and every other ID as before. */
  lemma UpdatedCounts(servos: seq<int>, oldId: int, newId: int, y: int)
    requires Single(servos)
    ensures var u := multiset(Updated(servos, oldId, newId));
      && u[newId] == 1
      && (y != newId ==> u[y] == if y == oldId then 0 else multiset(servos)[y])
  {
    var removed := if oldId in servos then RemoveFirst(servos, oldId) else servos;
    if oldId in servos {
      RemoveFirstMultiset(servos, oldId);
    }
    assert multiset(removed) == multiset(servos) - multiset{oldId} by {
      if oldId !in servos {
        assert multiset(servos)[oldId] == 0;
      }
    }
    assert newId in removed <==> multiset(removed)[newId] > 0;
  }

  /**
   * For a list without duplicates (as every scan gives), the updated
   * list is sorted, has no duplicates, and holds exactly the IDs of the old
   * list other than oldId, plus newId.
   */
  lemma AfterIdChangeProperties(servos: seq<int>, oldId: int, newId: int)
    requires Distinct(servos)
    ensures var r := AfterIdChange(servos, oldId, newId);
      && Sorted(r) && Distinct(r)
      && forall y :: y in r <==> (y in servos && y != oldId) || y == newId
  {
    var u := Updated(servos, oldId, newId);
    var r := Sort(u);
    DistinctSingle(servos);
    SortProperties(u);
    forall y ensures multiset(r)[y] <= 1 && (y in r <==> (y in servos && y != oldId) || y == newId) {
      UpdatedCounts(servos, oldId, newId, y);
      assert y in r <==> y in multiset(r);
      assert y in servos <==> y in multiset(servos);
    }
    DistinctSingle(r);
  }

  /** A list has no duplicates exactly when it counts every ID at most once. */
  lemma DistinctSingle(s: seq<int>)
    ensures Distinct(s) <==> Single(s)
  {
    if Distinct(s) {
      forall y ensures multiset(s)[y] <= 1 {
        DistinctCount(s, y);
      }
    }
    if Single(s) {
      forall j, k | 0 <= j < k < |s| ensures s[j] != s[k] {
        if s[j] == s[k] {
          MultisetTwo(s, j, k);
          assert false;
        }
      }
    }
  }

  /** An ID occurs at most once in a list without duplicates. */
  lemma {:induction false} DistinctCount(s: seq<int>, y: int)
    requires Distinct(s)
    ensures multiset(s)[y] <= 1
  {
    if s != [] {
      var n := |s| - 1;
      assert s == s[..n] + [s[n]];
      assert Distinct(s[..n]);
      DistinctCount(s[..n], y);
      if s[n] == y {
        assert y !in s[..n];
      }
    }
  }

  /** Two equal elements at different positions occur at least twice. */
  lemma MultisetTwo(s: seq<int>, j: int, k: int)
    requires 0 <= j < k < |s| && s[j] == s[k]
    ensures multiset(s)[s[j]] >= 2
  {
    assert s == s[..k] + s[k..];
    assert s[j] in s[..k];
    assert s[k] in s[k..];
  }

  /** update_button_states: button target (1..6) is enabled when it could receive a servo. */
  predicate ButtonEnabled(servos: seq<int>, connected: bool, target: int)
  {
    connected && |servos| > 0 && target !in servos
  }

  /**
   * After a successful change of oldId to newId on a connected port, the
   * newId button is disabled; the oldId button is enabled again (a servo is
   * still listed); and every other button keeps its state.
   */
  lemma ButtonsAfterIdChange(servos: seq<int>, oldId: int, newId: int, target: int)
    requires Distinct(servos) && oldId in servos && oldId != newId
    ensures var r := AfterIdChange(servos, oldId, newId);
      && !ButtonEnabled(r, true, newId)
      && ButtonEnabled(r, true, oldId)
      && (target != oldId && target != newId ==> (ButtonEnabled(r, true, target) <==> ButtonEnabled(servos, true, target)))
  {
    AfterIdChangeProperties(servos, oldId, newId);
    var r := AfterIdChange(servos, oldId, newId);
    assert newId in r;
  }

  /**
   * ServoWorker: one port's scanner.  The handler is the SDK packet
   * handler created when the port was connected.
   */
  class ServoWorker {
    const servoHandler: Handler
    const baudRate: int
    var isConnected: bool
    var currentServos: seq<int>
    var pauseScanning: bool

    constructor (servoHandler: Handler, isConnected: bool)
      ensures this.servoHandler == servoHandler && this.isConnected == isConnected
      ensures baudRate == 1000000 && currentServos == [] && !pauseScanning
    {
      this.servoHandler := servoHandler;
      this.isConnected := isConnected;
      baudRate := 1000000;
      currentServos := [];
      pauseScanning := false;
    }

    method PingServo(servoId: int) returns (ok: bool)
      modifies servoHandler
      ensures (servoHandler.State(), ok) == PingServoSpec(old(servoHandler.State()), servoId)
    {
      var reply := servoHandler.Send(Ping(servoId));
      ok := Succeeded(reply);
    }

    method ScanServos() returns (found: seq<int>)
      modifies servoHandler
      ensures (servoHandler.State(), found) == ScanSpec(old(servoHandler.State()), isConnected)
    {
      if !isConnected {
        return [];
      }
      ghost var t0 := servoHandler.State();
      found := [];
      var servoId := 1;
      while servoId < 10
        invariant 1 <= servoId <= 10
        invariant (servoHandler.State(), found) == PingEach(t0, SCAN_IDS[..servoId - 1])
      {
        var ok := PingServo(servoId);
        if ok {
          found := found + [servoId];
        }
        assert SCAN_IDS[..servoId][..servoId - 1] == SCAN_IDS[..servoId - 1];
        servoId := servoId + 1;
      }
      assert SCAN_IDS[..9] == SCAN_IDS;
    }

    method ExecuteIdChange(oldId: int, newId: int) returns (ok: bool)
      modifies servoHandler
      ensures (servoHandler.State(), ok) == ExecuteIdChangeSpec(old(servoHandler.State()), isConnected, oldId, newId)
    {
      if !isConnected {
        return false;
      }
      var ping := servoHandler.Send(Ping(oldId));
      if !Succeeded(ping) {
        return false;
      }
      var unlock := servoHandler.Send(Unlock(oldId));
      if !Succeeded(unlock) {
        return false;
      }
      var write := servoHandler.Send(Write1(oldId, ID_ADDRESS, newId));
      if !Succeeded(write) {
        return false;
      }
      ok := PingServo(newId);
      if !ok {
        return false;
      }
      var lock := servoHandler.Send(Lock(newId));
      ok := !lock.Raised?;
    }

    /**
     * One pass of run_scanner's loop.  A disconnected worker (whose
     * reconnection is port I/O) and a paused one send nothing; otherwise it
     * scans, and when the list changed it stores the new list and emits it
     * with what was added and removed.
     */
    method ScanPass() returns (update: Option<seq<int>>, added: set<int>, removed: set<int>)
      modifies this, servoHandler
      ensures isConnected == old(isConnected) && pauseScanning == old(pauseScanning)
      ensures !isConnected || pauseScanning ==>
        servoHandler.State() == old(servoHandler.State()) && update.None? && currentServos == old(currentServos)
      ensures isConnected && !pauseScanning ==>
        var (t1, found) := ScanSpec(old(servoHandler.State()), true);
        && servoHandler.State() == t1
        && (update.Some? <==> found != old(currentServos))
        && (update.Some? ==> update.value == found && currentServos == found
                             && (added, removed) == Changes(old(currentServos), found))
        && (update.None? ==> currentServos == old(currentServos))
    {
      update, added, removed := None, {}, {};
      if !isConnected || pauseScanning {
        return;
      }
      var newServos := ScanServos();
      if newServos != currentServos {
        var oldServos := currentServos;
        currentServos := newServos;
        added, removed := Changes(oldServos, newServos).0, Changes(oldServos, newServos).1;
        update := Some(currentServos);
      }
    }
  }

  /** The GUI panel of one port: its button rule and the list update after an ID change. */
  class ServoPanel {
    const worker: ServoWorker
    const portId: string

    constructor (worker: ServoWorker, portId: string)
      ensures this.worker == worker && this.portId == portId
    {
      this.worker := worker;
      this.portId := portId;
    }

    /** update_button_states: whether each of the buttons 1..6 is enabled. */
    method UpdateButtonStates(servos: seq<int>, connected: bool) returns (enabled: seq<bool>)
      ensures |enabled| == 6
      ensures forall i :: 0 <= i < 6 ==> (enabled[i] <==> connected && |servos| > 0 && i + 1 !in servos)
    {
      var hasServos := connected && |servos| > 0;
      enabled := [];
      var i := 0;
      while i < 6
        invariant 0 <= i <= 6 && |enabled| == i
        invariant forall j :: 0 <= j < i ==> (enabled[j] <==> ButtonEnabled(servos, connected, j + 1))
      {
        var targetId := i + 1;
        var isAssigned := targetId in servos;
        enabled := enabled + [hasServos && !isAssigned];
        i := i + 1;
      }
    }

    /**
     * on_id_changed for this port: after a successful change, drop the old
     * ID from the worker's list, add the new one unless present, and sort.
     */
    method OnIdChanged(oldId: int, newId: int, success: bool, portId: string)
      modifies worker
      ensures this.portId == portId && success ==>
        worker.currentServos == AfterIdChange(old(worker.currentServos), oldId, newId)
      ensures !(this.portId == portId && success) ==> worker.currentServos == old(worker.currentServos)
      ensures worker.isConnected == old(worker.isConnected) && worker.pauseScanning == old(worker.pauseScanning)
    {
      if portId != this.portId || !success {
        return;
      }
      if oldId in worker.currentServos {
        worker.currentServos := RemoveFirst(worker.currentServos, oldId);
      }
      if newId !in worker.currentServos {
        worker.currentServos := worker.currentServos + [newId];
      }
      worker.currentServos := Sort(worker.currentServos);
    }
  }
}
