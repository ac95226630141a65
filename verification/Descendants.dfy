/** Which processes belong to a command that was launched, and when it is known to have stopped. */
module Descendants {
  import opened Outcomes

  type Pid = nat

  datatype Row = Row(parent: Pid, group: Pid, identity: string)

  type Table = map<Pid, Row>

  /** Whoever has a tracked parent, or is in the group, is tracked. */
  ghost predicate Closed(table: Table, group: Option<Pid>, s: set<Pid>) {
    forall pid | pid in table && Joins(table, group, s, pid) :: pid in s
  }

  predicate Joins(table: Table, group: Option<Pid>, s: set<Pid>, pid: Pid)
    requires pid in table
  {
    table[pid].parent in s || group == Some(table[pid].group)
  }

  /** The least closed set that contains the given processes. */
  ghost predicate LeastClosure(table: Table, group: Option<Pid>, start: set<Pid>, s: set<Pid>) {
    && start <= s && Closed(table, group, s)
    && forall t: set<Pid> {:trigger Closed(table, group, t)} :: start <= t && Closed(table, group, t) ==> s <= t
  }

  /** Each process of the chain is the parent of the next. */
  predicate Chain(table: Table, chain: seq<Pid>) {
    chain != [] && forall i | 1 <= i < |chain| :: chain[i] in table && table[chain[i]].parent == chain[i - 1]
  }

  lemma {:induction false} ClosedUnderChains(table: Table, group: Option<Pid>, s: set<Pid>, chain: seq<Pid>)
    requires Closed(table, group, s) && Chain(table, chain) && chain[0] in s
    ensures chain[|chain| - 1] in s
    decreases |chain|
  {
    if |chain| > 1 {
      var n := |chain| - 1;
      ClosedUnderChains(table, group, s, chain[..n]);
      assert Joins(table, group, s, chain[n]);
    }
  }

  /** A live process of the set is in another group. */
  predicate Astray(table: Table, group: Option<Pid>, s: set<Pid>) {
    exists p | p in s :: p in table && Some(table[p].group) != group
  }

  datatype RecordState = RESERVED | REGISTERED | RUNNING | STOPPED | UNKNOWN

  /** The durable record of one launched command. */
  class ProcessRecord {
    var pid: Option<Pid>
    var identity: string
    var group: Option<Pid>
    var boot: string
    var descendants: map<Pid, string>
    var state: RecordState
    var ended: bool

    constructor (boot: string)
      ensures pid.None? && group.None? && descendants == map[] && !ended && this.boot == boot
    {
      pid, identity, group, this.boot, descendants, state, ended := None, "", None, boot, map[], RESERVED, false;
    }

    /** Every process ever tracked, with the identity it had then. */
    function Tracked(): map<Pid, string>
      reads this
    {
      if pid.Some? then descendants[pid.value := identity] else descendants
    }

    predicate Reused(table: Table)
      reads this
    {
      exists p | p in Tracked() :: p in table && table[p].identity != Tracked()[p]
    }

    /** Grows the tracked set until a whole pass over the table adds nothing. */
    method Close(table: Table, order: seq<Pid>, start: map<Pid, string>) returns (tracked: map<Pid, string>)
      requires forall p :: p in order <==> p in table
      ensures LeastClosure(table, group, start.Keys, tracked.Keys)
      ensures forall p | p in start :: tracked[p] == start[p]
    {
      tracked := start;
      var changed := true;
      while changed
        invariant start.Keys <= tracked.Keys <= start.Keys + table.Keys
        invariant forall p | p in start :: tracked[p] == start[p]
        invariant forall t: set<Pid> {:trigger Closed(table, group, t)} ::
                  start.Keys <= t && Closed(table, group, t) ==> tracked.Keys <= t
        invariant !changed ==> Closed(table, group, tracked.Keys)
        decreases start.Keys + table.Keys - tracked.Keys, changed
      {
        ghost var left := start.Keys + table.Keys - tracked.Keys;
        tracked, changed := Pass(table, order, start, tracked);
        assert changed ==> start.Keys + table.Keys - tracked.Keys < left;
      }
    }

    /** One pass over the table, in its order. */
    method Pass(table: Table, order: seq<Pid>, start: map<Pid, string>, before: map<Pid, string>)
      returns (tracked: map<Pid, string>, changed: bool)
      requires forall p :: p in order <==> p in table
      requires start.Keys <= before.Keys <= start.Keys + table.Keys
      requires forall p | p in start :: before[p] == start[p]
      requires forall t: set<Pid> {:trigger Closed(table, group, t)} :: start.Keys <= t && Closed(table, group, t) ==>
               before.Keys <= t
      ensures before.Keys <= tracked.Keys <= start.Keys + table.Keys
      ensures forall p | p in start :: tracked[p] == start[p]
      ensures forall t: set<Pid> {:trigger Closed(table, group, t)} :: start.Keys <= t && Closed(table, group, t) ==>
              tracked.Keys <= t
      ensures if changed then tracked.Keys > before.Keys else tracked == before
      ensures !changed ==> Closed(table, group, tracked.Keys)
    {
      tracked, changed := before, false;
      var i := 0;
      while i < |order|
        invariant 0 <= i <= |order|
        invariant before.Keys <= tracked.Keys <= start.Keys + table.Keys
        invariant forall p | p in start :: tracked[p] == start[p]
        invariant forall t: set<Pid> {:trigger Closed(table, group, t)} ::
                  start.Keys <= t && Closed(table, group, t) ==> tracked.Keys <= t
        invariant changed ==> tracked.Keys != before.Keys
        invariant !changed ==> tracked == before
        invariant !changed ==> forall k | 0 <= k < i && Joins(table, group, before.Keys, order[k]) :: order[k] in before
      {
        var p := order[i];
        assert p in table;
        if p !in tracked && (table[p].parent in tracked || group == Some(table[p].group)) {
          forall t: set<Pid> | start.Keys <= t && Closed(table, group, t) ensures p in t {
            assert tracked.Keys <= t;
            assert Joins(table, group, t, p);
          }
          assert p !in before.Keys;
          tracked := tracked[p := table[p].identity];
          changed := true;
        }
        i := i + 1;
      }
      if !changed {
        forall p | p in table && Joins(table, group, tracked.Keys, p) ensures p in tracked.Keys {
          assert p in order;
        }
      }
    }

    /** Looks at the process table once. Tracking only grows; a reused pid or a process that left the group is an
        error. */
    method Observe(table: Table, order: seq<Pid>, currentBoot: string) returns (r: Result<map<Pid, Row>>)
      requires forall p :: p in order <==> p in table
      modifies this`descendants, this`state
      ensures old(boot) != currentBoot ==> r == Ok(map[]) && Tracked() == old(Tracked())
      ensures boot == currentBoot && r.Ok? ==>
                && LeastClosure(table, group, old(Tracked()).Keys, Tracked().Keys)
                && (forall p | p in old(Tracked()) :: Tracked()[p] == old(Tracked())[p])
                && r.value.Keys == Tracked().Keys * table.Keys
                && forall p | p in r.value :: r.value[p] == table[p] && Some(table[p].group) == group
      ensures r.Err? ==> state == UNKNOWN && Tracked() == old(Tracked()) && boot == currentBoot
      ensures boot == currentBoot ==> forall s | LeastClosure(table, group, old(Tracked()).Keys, s) ::
                r.Err? <==> old(Reused(table)) || Astray(table, group, s)
    {
      if boot != currentBoot {
        return Ok(map[]);
      }
      if Reused(table) {
        state := UNKNOWN;
        return Err(PROCESS_TERMINATION_UNCONFIRMED);
      }
      var tracked := Close(table, order, Tracked());
      var live := map p | p in tracked && p in table :: table[p];
      OneClosure(table, group, Tracked().Keys, tracked.Keys);
      if exists p | p in live :: Some(live[p].group) != group {
        assert Astray(table, group, tracked.Keys);
        state := UNKNOWN;
        return Err(PROCESS_TERMINATION_UNCONFIRMED);
      }
      descendants := if pid.Some? then tracked - {pid.value} else tracked;
      assert Tracked() == tracked;
      return Ok(live);
    }

    lemma OneClosure(table: Table, group: Option<Pid>, start: set<Pid>, s: set<Pid>)
      requires LeastClosure(table, group, start, s)
      ensures forall t :: LeastClosure(table, group, start, t) ==> t == s
    {
      forall t | LeastClosure(table, group, start, t) ensures t == s {
        assert Closed(table, group, t) && Closed(table, group, s);
      }
    }

    /** The command is confirmed stopped only when nothing that may descend from it is left. */
    method ConfirmStopped(table: Table, order: seq<Pid>, currentBoot: string) returns (stopped: bool)
      requires forall p :: p in order <==> p in table
      modifies this`descendants, this`state, this`ended
      ensures stopped ==> ended
      ensures !stopped ==> ended == old(ended) == false
      ensures stopped && !old(ended) && boot == currentBoot ==>
                forall chain | Chain(table, chain) && chain[0] in old(Tracked()) :: chain[|chain| - 1] !in table
      ensures stopped && !old(ended) && boot == currentBoot ==>
                forall p | p in table :: Some(table[p].group) != group
      ensures old(pid).None? && !old(ended) ==> !stopped
    {
      if ended {
        return true;
      }
      if pid.None? || identity == "" {
        return false;
      }
      var live := Observe(table, order, currentBoot);
      if live.Err? || live.value != map[] {
        return false;
      }
      if boot == currentBoot {
        NothingLeft(table, old(Tracked()).Keys, Tracked().Keys);
      }
      ended := true;
      state := STOPPED;
      return true;
    }

    lemma NothingLeft(table: Table, start: set<Pid>, s: set<Pid>)
      requires LeastClosure(table, group, start, s) && s * table.Keys == {}
      ensures forall chain | Chain(table, chain) && chain[0] in start :: chain[|chain| - 1] !in table
      ensures forall p | p in table :: Some(table[p].group) != group
    {
      forall chain | Chain(table, chain) && chain[0] in start ensures chain[|chain| - 1] !in table {
        ClosedUnderChains(table, group, s, chain);
        assert chain[|chain| - 1] !in s * table.Keys;
      }
      forall p | p in table ensures Some(table[p].group) != group {
        assert p !in s * table.Keys;
        assert !Joins(table, group, s, p);
      }
    }
  }
}
