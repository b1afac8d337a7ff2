/**
 * The load-balancing player scheduler of the older tree. A fixed number of
 * buckets ("player tasks") each hold a set of player ids and, while
 * running, a repeating server timer. A new player goes into the lightest
 * bucket; a bucket that must start while another runs is queued, and the
 * next bucket to fire starts it displaced by its distance in buckets. A
 * bucket that empties cancels its timer.
 *
 * A Bukkit timer is a handle into the log of timers started, each with its
 * delay and period; cancelling it adds the handle to the cancelled set.
 * The player data writer's calls are a log as well.
 */
module Scheduling {
  import opened Wrappers
  import opened Messages
  import opened Sets

  /** BukkitScheduler.runTaskTimer(plugin, bucket, delay, period) */
  datatype TimerStart = TimerStart(bucket: int, delay: int, period: int)

  datatype WriterCall = WriteData(player: Uuid) | FlushData

  datatype SchedulerError = IllegalArgument

  /**
   * The delay a queued bucket starts with when bucket `running` fires: its
   * distance after the running bucket, counted round the ring of buckets,
   * times the displacement between neighbours.
   */
  function StartDelay(start: int, running: int, maximumTasks: int, tickDisplacement: int): int
  {
    var diff := start - running;
    (if diff < 0 then maximumTasks + diff else diff) * tickDisplacement
  }

  lemma StartDelayInRing(start: int, running: int, maximumTasks: int, tickDisplacement: int)
    requires 0 <= start < maximumTasks && 0 <= running < maximumTasks && tickDisplacement >= 0
    ensures StartDelay(start, running, maximumTasks, tickDisplacement) == ((start - running) % maximumTasks) * tickDisplacement
    ensures 0 <= StartDelay(start, running, maximumTasks, tickDisplacement) <= (maximumTasks - 1) * tickDisplacement
    ensures StartDelay(start, running, maximumTasks, tickDisplacement) == 0 <==> start == running || tickDisplacement == 0
  {
    var diff := start - running;
    var d := if diff < 0 then maximumTasks + diff else diff;
    RingDistance(diff, maximumTasks);
    assert StartDelay(start, running, maximumTasks, tickDisplacement) == d * tickDisplacement;
    ScaleBounds(d, maximumTasks - 1, tickDisplacement);
  }

  lemma RingDistance(diff: int, n: int)
    requires -n < diff < n
    ensures diff % n == if diff < 0 then n + diff else diff
  {
    if diff < 0 {
      assert n + diff == diff + 1 * n;
    }
  }

  lemma ScaleBounds(d: int, top: int, factor: int)
    requires 0 <= d <= top && factor >= 0
    ensures 0 <= d * factor <= top * factor
    ensures d * factor == 0 <==> d == 0 || factor == 0
  {
    if d > 0 && factor > 0 {
      assert d * factor >= factor;
    }
  }

  /** The first bucket of least size among buckets 0 .. i-1. */
  function LightestUpTo(buckets: seq<set<Uuid>>, i: nat): (l: nat)
    requires 0 < i <= |buckets|
    ensures l < i
    ensures forall m :: 0 <= m < i ==> |buckets[l]| <= |buckets[m]|
    ensures forall m :: 0 <= m < l ==> |buckets[m]| > |buckets[l]|
  {
    if i == 1 then 0
    else
      var l := LightestUpTo(buckets, i - 1);
      if |buckets[l]| > |buckets[i - 1]| then i - 1 else l
  }

  function Lightest(buckets: seq<set<Uuid>>): (l: nat)
    requires |buckets| > 0
    ensures l < |buckets|
  {
    LightestUpTo(buckets, |buckets|)
  }

  /** Bucket sizes that differ by at most one. */
  predicate Balanced(buckets: seq<set<Uuid>>)
  {
    forall i, j :: 0 <= i < |buckets| && 0 <= j < |buckets| ==> |buckets[i]| <= |buckets[j]| + 1
  }

  /**
   * Enrolling into the lightest bucket keeps the buckets balanced, so while
   * players are only added no bucket holds two more players than another.
   */
  lemma AddingToLightestKeepsBalance(buckets: seq<set<Uuid>>, id: Uuid)
    requires |buckets| > 0 && Balanced(buckets)
    requires forall j :: 0 <= j < |buckets| ==> id !in buckets[j]
    ensures var l := Lightest(buckets);
      Balanced(buckets[l := buckets[l] + {id}])
  {
    var l := Lightest(buckets);
    var after := buckets[l := buckets[l] + {id}];
    assert |after[l]| == |buckets[l]| + 1;
    forall i, j | 0 <= i < |after| && 0 <= j < |after| ensures |after[i]| <= |after[j]| + 1 {
      if i == l && j != l {
        assert |buckets[l]| <= |buckets[j]|;
      }
    }
  }

  /** The handles of the running timers. */
  function RunningHandles(tasks: seq<Option<nat>>): set<nat>
  {
    if tasks == [] then {}
    else RunningHandles(tasks[..|tasks| - 1]) + if tasks[|tasks| - 1].Some? then {tasks[|tasks| - 1].value} else {}
  }

  predicate NoTimers(tasks: seq<Option<nat>>)
  {
    forall j :: 0 <= j < |tasks| ==> tasks[j].None?
  }

  function SetOf(calls: seq<WriterCall>): set<Uuid>
  {
    set i | 0 <= i < |calls| && calls[i].WriteData? :: calls[i].player
  }

  /** A log of writeData calls only, one per player. */
  predicate WritesOnce(calls: seq<WriterCall>)
  {
    (forall i :: 0 <= i < |calls| ==> calls[i].WriteData?)
    && forall i, j :: 0 <= i < j < |calls| ==> calls[i].player != calls[j].player
  }

  class PlayerScheduler {
    const tickFrequency: int
    const maximumTasks: int
    const tickDisplacement: int
    /** The player ids of each bucket ("player task"), in creation order. */
    var buckets: seq<set<Uuid>>
    /** The running timer of each bucket, as a handle into `started`. */
    var tasks: seq<Option<nat>>
    /** The queued buckets ("startingTasks"). */
    var starting: set<int>
    var started: seq<TimerStart>
    var cancelled: set<nat>
    var writes: seq<WriterCall>

    predicate Valid()
      reads this
    {
      1 <= maximumTasks <= tickFrequency && tickDisplacement == tickFrequency / maximumTasks
      && |buckets| == |tasks| == maximumTasks
      // each player id is in at most one bucket
      && (forall i, j :: 0 <= i < j < maximumTasks ==> buckets[i] !! buckets[j])
      && (forall j :: j in starting ==> 0 <= j < maximumTasks)
      // a bucket's timer is a started, uncancelled timer of that bucket
      && (forall j :: 0 <= j < maximumTasks && tasks[j].Some? ==>
            tasks[j].value < |started| && started[tasks[j].value].bucket == j && tasks[j].value !in cancelled)
      // every timer runs at tickFrequency, displaced by less than one round of buckets
      && (forall h :: 0 <= h < |started| ==>
            0 <= started[h].bucket < maximumTasks && started[h].period == tickFrequency
            && 0 <= started[h].delay <= (maximumTasks - 1) * tickDisplacement)
      && (forall h :: h in cancelled ==> h < |started|)
      // a bucket with players is running or queued to start
      && (forall j :: 0 <= j < maximumTasks && buckets[j] != {} ==> tasks[j].Some? || j in starting)
    }

    /** A timer of bucket k that was started and not cancelled, which Bukkit may fire. */
    predicate HasLiveTimer(k: int)
      reads this
    {
      exists h :: 0 <= h < |started| && started[h].bucket == k && h !in cancelled
    }

    constructor (tickFrequency: int, maximumTasks: int)
      requires tickFrequency >= 1 && 1 <= maximumTasks <= tickFrequency
      ensures Valid()
      ensures this.tickFrequency == tickFrequency && this.maximumTasks == maximumTasks
      ensures tickDisplacement == tickFrequency / maximumTasks
      ensures |buckets| == maximumTasks && forall j :: 0 <= j < maximumTasks ==> buckets[j] == {}
      ensures NoTimers(tasks) && starting == {} && started == [] && cancelled == {} && writes == []
    {
      this.tickFrequency := tickFrequency;
      this.maximumTasks := maximumTasks;
      tickDisplacement := tickFrequency / maximumTasks;
      buckets := seq(maximumTasks, _ => {});
      tasks := seq(maximumTasks, _ => None);
      starting, started, cancelled, writes := {}, [], {}, [];
    }

    /**
     * The PlayerScheduler constructor: IllegalArgumentException when the
     * frequency or the number of buckets is below 1; otherwise that many
     * empty, idle buckets, at most one per tick of the period.
     */
    static method Create(tickFrequency: int, maximumTasks: int) returns (r: Result<PlayerScheduler, SchedulerError>)
      ensures r.Err? <==> tickFrequency <= 0 || maximumTasks <= 0
      ensures r.Ok? ==> (fresh(r.value) && r.value.Valid() && r.value.tickFrequency == tickFrequency
        && r.value.maximumTasks == (if maximumTasks > tickFrequency then tickFrequency else maximumTasks)
        && r.value.tickDisplacement == tickFrequency / r.value.maximumTasks
        && NoTimers(r.value.tasks) && r.value.starting == {}
        && forall j :: 0 <= j < r.value.maximumTasks ==> r.value.buckets[j] == {})
    {
      if tickFrequency <= 0 || maximumTasks <= 0 {
        return Err(IllegalArgument);
      }
      var tasks := if maximumTasks > tickFrequency then tickFrequency else maximumTasks;
      var s := new PlayerScheduler(tickFrequency, tasks);
      return Ok(s);
    }

    /** PlayerTask.checkCancel for bucket j: an empty bucket's timer is cancelled. */
    method CheckCancel(j: int)
      requires Valid() && 0 <= j < maximumTasks
      modifies this`tasks, this`cancelled
      ensures Valid()
      ensures buckets[j] == {} && old(tasks[j]).Some? ==>
        tasks == old(tasks)[j := None] && cancelled == old(cancelled) + {old(tasks[j]).value}
      ensures !(buckets[j] == {} && old(tasks[j]).Some?) ==> tasks == old(tasks) && cancelled == old(cancelled)
    {
      if buckets[j] == {} && tasks[j].Some? {
        cancelled := cancelled + {tasks[j].value};
        tasks := tasks[j := None];
      }
    }

    /**
     * addPlayer: false and nothing changed when a bucket already holds the
     * id; otherwise the id joins the first lightest bucket, which starts a
     * timer at once (delay 0) when no bucket is running, or is queued when
     * another bucket is running and it is not.
     */
    method AddPlayer(id: Uuid) returns (added: bool)
      requires Valid()
      modifies this
      ensures Valid()
      ensures writes == old(writes) && cancelled == old(cancelled)
      ensures added <==> forall j :: 0 <= j < maximumTasks ==> id !in old(buckets[j])
      ensures !added ==> buckets == old(buckets) && tasks == old(tasks) && starting == old(starting) && started == old(started)
      ensures added ==>
        var l := Lightest(old(buckets));
        buckets == old(buckets)[l := old(buckets[l]) + {id}]
        && (old(tasks[l]).None? && NoTimers(old(tasks)) ==>
              tasks == old(tasks)[l := Some(|old(started)|)] && started == old(started) + [TimerStart(l, 0, tickFrequency)]
              && starting == old(starting))
        && (old(tasks[l]).None? && !NoTimers(old(tasks)) ==>
              tasks == old(tasks) && started == old(started) && starting == old(starting) + {l})
        && (old(tasks[l]).Some? ==> tasks == old(tasks) && started == old(started) && starting == old(starting))
    {
      var present, lightest, idle := Survey(id);
      if present {
        return false;
      }
      if tasks[lightest].None? {
        if idle {
          ScaleBounds(0, maximumTasks - 1, tickDisplacement);
          StartTimer(lightest, 0);
        } else {
          starting := starting + {lightest};
        }
      }
      Join(lightest, id);
      return true;
    }

    /** The id joins bucket l, which is running or queued. */
    method Join(l: int, id: Uuid)
      requires Valid() && 0 <= l < maximumTasks && (tasks[l].Some? || l in starting)
      requires forall j :: 0 <= j < maximumTasks ==> id !in buckets[j]
      modifies this`buckets
      ensures Valid()
      ensures buckets == old(buckets)[l := old(buckets[l]) + {id}]
    {
      buckets := buckets[l := buckets[l] + {id}];
    }

    /**
     * The loop of addPlayer: whether some bucket holds the id, the first
     * lightest bucket, and whether no bucket is running.
     */
    method Survey(id: Uuid) returns (present: bool, lightest: nat, idle: bool)
      requires Valid()
      ensures present <==> exists j :: 0 <= j < maximumTasks && id in buckets[j]
      ensures !present ==> lightest == Lightest(buckets)
      ensures !present ==> (idle <==> NoTimers(tasks))
    {
      idle := true;
      lightest := 0;
      var i := 0;
      while i < maximumTasks
        invariant 0 <= i <= maximumTasks
        invariant forall j :: 0 <= j < i ==> id !in buckets[j]
        invariant i > 0 ==> lightest == LightestUpTo(buckets, i)
        invariant idle <==> forall j :: 0 <= j < i ==> tasks[j].None?
      {
        if id in buckets[i] {
          return true, lightest, idle;
        }
        if i == 0 || |buckets[lightest]| > |buckets[i]| {
          lightest := i;
        }
        if tasks[i].Some? {
          idle := false;
        }
        i := i + 1;
      }
      return false, lightest, idle;
    }

    /**
     * removePlayer: true exactly when some bucket held the id; afterwards no
     * bucket does, and the bucket that lost it cancels its timer if it is
     * now empty.
     */
    method RemovePlayer(id: Uuid) returns (removed: bool)
      requires Valid()
      modifies this
      ensures Valid()
      ensures writes == old(writes) && starting == old(starting) && started == old(started)
      ensures removed <==> exists j :: 0 <= j < maximumTasks && id in old(buckets[j])
      ensures |buckets| == maximumTasks && forall j :: 0 <= j < maximumTasks ==> buckets[j] == old(buckets[j]) - {id}
      ensures !removed ==> tasks == old(tasks) && cancelled == old(cancelled)
      ensures removed ==> exists j :: (0 <= j < maximumTasks && id in old(buckets[j])
        && (old(buckets[j]) == {id} && old(tasks[j]).Some? ==>
              tasks == old(tasks)[j := None] && cancelled == old(cancelled) + {old(tasks[j]).value})
        && (!(old(buckets[j]) == {id} && old(tasks[j]).Some?) ==> tasks == old(tasks) && cancelled == old(cancelled)))
    {
      var i := 0;
      while i < maximumTasks
        invariant 0 <= i <= maximumTasks
        invariant forall j :: 0 <= j < i ==> id !in buckets[j]
        invariant buckets == old(buckets) && tasks == old(tasks) && cancelled == old(cancelled)
      {
        if id in buckets[i] {
          buckets := buckets[i := buckets[i] - {id}];
          CheckCancel(i);
          forall j | 0 <= j < maximumTasks ensures buckets[j] == old(buckets[j]) - {id} {
            if j != i { assert old(buckets[i]) !! old(buckets[j]); }
          }
          return true;
        }
        i := i + 1;
      }
      return false;
    }

    /**
     * clear: every bucket emptied and every running timer cancelled. The
     * queue of buckets to start is left as it is.
     */
    method Clear()
      requires Valid()
      modifies this
      ensures Valid()
      ensures writes == old(writes) && starting == old(starting) && started == old(started)
      ensures |buckets| == maximumTasks && forall j :: 0 <= j < maximumTasks ==> buckets[j] == {}
      ensures NoTimers(tasks)
      ensures cancelled == old(cancelled) + RunningHandles(old(tasks))
    {
      var ts, cs := tasks, cancelled;
      var i := 0;
      while i < maximumTasks
        invariant 0 <= i <= maximumTasks && |ts| == maximumTasks
        invariant forall j :: 0 <= j < i ==> ts[j].None?
        invariant forall j :: i <= j < maximumTasks ==> ts[j] == tasks[j]
        invariant cs == cancelled + RunningHandles(tasks[..i])
        invariant forall h :: h in cs ==> h < |started|
        modifies {}
      {
        assert tasks[..i + 1] == tasks[..i] + [tasks[i]];
        if ts[i].Some? {
          cs := cs + {ts[i].value};
          ts := ts[i := None];
        }
        i := i + 1;
      }
      assert tasks[..maximumTasks] == tasks;
      buckets, tasks, cancelled := seq(maximumTasks, _ => {}), ts, cs;
    }

    /**
     * runTaskTimer(plugin, bucket j, delay, tickFrequency): a new timer
     * becomes bucket j's task, replacing any it had.
     */
    method StartTimer(j: int, delay: int)
      requires Valid() && 0 <= j < maximumTasks && 0 <= delay <= (maximumTasks - 1) * tickDisplacement
      modifies this`tasks, this`started
      ensures Valid()
      ensures tasks == old(tasks)[j := Some(|old(started)|)]
      ensures started == old(started) + [TimerStart(j, delay, tickFrequency)]
    {
      tasks := tasks[j := Some(|started|)];
      started := started + [TimerStart(j, delay, tickFrequency)];
    }

    /**
     * The first half of PlayerTask.run for bucket k: every queued bucket
     * gets a new timer, displaced by StartDelay from k, and the queue is
     * emptied. A queued bucket that already has a timer gets a second one;
     * the first is neither kept nor cancelled.
     */
    method StartQueued(k: int)
      requires Valid() && 0 <= k < maximumTasks
      modifies this`tasks, this`started, this`starting
      ensures Valid()
      ensures starting == {}
      ensures |started| == |old(started)| + |old(starting)| && started[..|old(started)|] == old(started)
      ensures forall j :: 0 <= j < maximumTasks && j !in old(starting) ==> tasks[j] == old(tasks[j])
      ensures forall j :: j in old(starting) ==> tasks[j].Some? && tasks[j].value >= |old(started)|
      ensures forall h :: |old(started)| <= h < |started| ==>
        started[h].bucket in old(starting)
        && started[h].delay == StartDelay(started[h].bucket, k, maximumTasks, tickDisplacement)
    {
      var ts, st := StartTimers(starting, tasks, started, k, maximumTasks, tickDisplacement, tickFrequency);
      forall h | |started| <= h < |st|
        ensures 0 <= st[h].delay <= (maximumTasks - 1) * tickDisplacement
      {
        StartDelayInRing(st[h].bucket, k, maximumTasks, tickDisplacement);
      }
      tasks, started, starting := ts, st, {};
    }

    /**
     * Bucket k's timer after players were evicted or not: cancelled and
     * dropped once an eviction has emptied the bucket, as it was otherwise.
     */
    ghost predicate TimerAfter(k: int, evicted: bool, before: seq<Option<nat>>, cancelledBefore: set<nat>)
      requires 0 <= k < |before|
      reads this
    {
      var cancels := evicted && k < |buckets| && buckets[k] == {} && before[k].Some?;
      tasks == before[k := if cancels then None else before[k]]
      && cancelled == cancelledBefore + (if cancels then {before[k].value} else {})
    }

    /**
     * The loop of PlayerTask.run over bucket k's players: writeData for
     * each one online, iter.remove() for each one not. The writer never
     * sees the bucket, and checkCancel can only act on the removal that
     * empties it, so the removals and the one checkCancel that matters are
     * applied together after the loop.
     */
    method WriteOnline(k: int, online: set<Uuid>) returns (written: seq<WriterCall>)
      requires Valid() && 0 <= k < maximumTasks
      modifies this`buckets, this`tasks, this`cancelled
      ensures Valid()
      ensures buckets == old(buckets)[k := old(buckets[k]) * online]
      ensures TimerAfter(k, !(old(buckets[k]) <= online), old(tasks), old(cancelled))
      ensures WritesOnce(written) && SetOf(written) == old(buckets[k]) * online
    {
      var players := buckets[k];
      var kept;
      written, kept := WriteEach(players, online);
      var evicted := kept != players;
      if evicted {
        buckets := buckets[k := kept];
        CheckCancel(k);
      } else {
        assert buckets == old(buckets)[k := players];
      }
    }

    /**
     * The second half of PlayerTask.run for bucket k: writeData for every
     * player of the bucket who is online, eviction of every one who is not
     * (cancelling the timer once the bucket is empty), then flushData once
     * if the bucket still has players.
     */
    method WriteBucket(k: int, online: set<Uuid>)
      requires Valid() && 0 <= k < maximumTasks
      modifies this`buckets, this`tasks, this`cancelled, this`writes
      ensures Valid()
      ensures buckets == old(buckets)[k := old(buckets[k]) * online]
      ensures TimerAfter(k, !(old(buckets[k]) <= online), old(tasks), old(cancelled))
      ensures exists written :: (WritesOnce(written) && SetOf(written) == old(buckets[k]) * online
        && writes == old(writes) + written + (if buckets[k] != {} then [FlushData] else []))
    {
      var written := WriteOnline(k, online);
      writes := writes + written + if buckets[k] != {} then [FlushData] else [];
    }

    /**
     * PlayerTask.run for bucket k, fired by one of its live timers, with
     * `online` the players Bukkit.getPlayer finds: start the queued
     * buckets, then write, evict and flush as WriteBucket says.
     */
    method Run(k: int, online: set<Uuid>)
      requires Valid() && 0 <= k < maximumTasks && HasLiveTimer(k)
      modifies this
      ensures Valid()
      ensures starting == {} && |started| == |old(started)| + |old(starting)|
      ensures started[..|old(started)|] == old(started)
      ensures forall h :: |old(started)| <= h < |started| ==>
        started[h].bucket in old(starting)
        && started[h].delay == StartDelay(started[h].bucket, k, maximumTasks, tickDisplacement)
      ensures buckets == old(buckets)[k := old(buckets[k]) * online]
      ensures cancelled - old(cancelled) <= set h | 0 <= h < |started| && started[h].bucket == k
      ensures exists written :: (WritesOnce(written) && SetOf(written) == old(buckets[k]) * online
        && writes == old(writes) + written + (if buckets[k] != {} then [FlushData] else []))
      // the other buckets: a queued one has its new timer, the rest keep theirs
      ensures forall j :: 0 <= j < maximumTasks && j != k && j !in old(starting) ==> tasks[j] == old(tasks[j])
      ensures forall j :: j in old(starting) && j != k ==> tasks[j].Some? && tasks[j].value >= |old(started)|
      // bucket k: once an eviction empties it, its timer is cancelled and dropped
      ensures var emptied := !(old(buckets[k]) <= online) && buckets[k] == {};
        (emptied ==> tasks[k].None?)
        && (emptied && k !in old(starting) ==>
              cancelled == old(cancelled) + (if old(tasks[k]).Some? then {old(tasks[k]).value} else {}))
        && (emptied && k in old(starting) ==>
              exists h :: |old(started)| <= h < |started| && started[h].bucket == k && cancelled == old(cancelled) + {h})
        && (!emptied ==>
              cancelled == old(cancelled)
              && (k !in old(starting) ==> tasks[k] == old(tasks[k]))
              && (k in old(starting) ==> tasks[k].Some? && tasks[k].value >= |old(started)|))
    {
      StartQueued(k);
      ghost var queued := tasks;
      WriteBucket(k, online);
      if k in old(starting) && !(old(buckets[k]) <= online) && buckets[k] == {} {
        assert cancelled == old(cancelled) + {queued[k].value};
      }
    }
  }

  /**
   * The iteration over a bucket's players: one writeData per player who is
   * online, in the bucket's iteration order, and the players kept.
   */
  method WriteEach(players: set<Uuid>, online: set<Uuid>) returns (written: seq<WriterCall>, kept: set<Uuid>)
    ensures WritesOnce(written) && SetOf(written) == players * online
    ensures kept == players * online
  {
    written := [];
    kept := {};
    ghost var seen: set<Uuid> := {};
    var remaining := players;
    while remaining != {}
      invariant remaining <= players && seen == players - remaining
      invariant kept == seen * online
      invariant WritesOnce(written) && SetOf(written) == seen * online
      decreases |remaining|
    {
      var id := Pick(remaining);
      remaining := remaining - {id};
      if id in online {
        AppendWrite(written, id);
        written := written + [WriteData(id)];
        kept := kept + {id};
      }
      seen := seen + {id};
    }
  }

  /**
   * After the buckets of `done` were started from bucket k: each has a new
   * timer, appended after `started` with the delay StartDelay gives, and
   * every other bucket keeps its task.
   */
  ghost predicate StartedFrom(done: set<int>, tasks: seq<Option<nat>>, started: seq<TimerStart>,
                              ts: seq<Option<nat>>, st: seq<TimerStart>,
                              k: int, maximumTasks: int, tickDisplacement: int, tickFrequency: int)
  {
    |tasks| == |ts| == maximumTasks
    && |st| == |started| + |done| && st[..|started|] == started
    && (forall j :: 0 <= j < maximumTasks && j !in done ==> ts[j] == tasks[j])
    && (forall j :: j in done ==> 0 <= j < maximumTasks && ts[j].Some? && |started| <= ts[j].value < |st| && st[ts[j].value].bucket == j)
    && (forall h :: |started| <= h < |st| ==>
          st[h].bucket in done && st[h].period == tickFrequency
          && st[h].delay == StartDelay(st[h].bucket, k, maximumTasks, tickDisplacement))
  }

  lemma StartOneMore(done: set<int>, tasks: seq<Option<nat>>, started: seq<TimerStart>,
                     ts: seq<Option<nat>>, st: seq<TimerStart>, s: int,
                     k: int, maximumTasks: int, tickDisplacement: int, tickFrequency: int)
    requires StartedFrom(done, tasks, started, ts, st, k, maximumTasks, tickDisplacement, tickFrequency)
    requires 0 <= s < maximumTasks && s !in done
    ensures StartedFrom(done + {s}, tasks, started, ts[s := Some(|st|)],
      st + [TimerStart(s, StartDelay(s, k, maximumTasks, tickDisplacement), tickFrequency)],
      k, maximumTasks, tickDisplacement, tickFrequency)
  {
    var ts', st' := ts[s := Some(|st|)], st + [TimerStart(s, StartDelay(s, k, maximumTasks, tickDisplacement), tickFrequency)];
    assert st'[..|started|] == started by {
      assert st'[..|started|] == st[..|started|];
    }
    forall h | |started| <= h < |st'|
      ensures st'[h].bucket in done + {s} && st'[h].period == tickFrequency
        && st'[h].delay == StartDelay(st'[h].bucket, k, maximumTasks, tickDisplacement)
    {
      if h < |st| {
        assert st'[h] == st[h];
      }
    }
    forall j | j in done + {s}
      ensures 0 <= j < maximumTasks && ts'[j].Some? && |started| <= ts'[j].value < |st'| && st'[ts'[j].value].bucket == j
    {
      if j != s {
        assert ts'[j] == ts[j] && st'[ts[j].value] == st[ts[j].value];
      }
    }
  }

  /**
   * The loop of PlayerTask.run over the queued buckets, fired from bucket
   * k: each gets a new timer, whose handle replaces the bucket's task.
   */
  method StartTimers(queue: set<int>, tasks: seq<Option<nat>>, started: seq<TimerStart>,
                     k: int, maximumTasks: int, tickDisplacement: int, tickFrequency: int)
    returns (ts: seq<Option<nat>>, st: seq<TimerStart>)
    requires |tasks| == maximumTasks && forall j :: j in queue ==> 0 <= j < maximumTasks
    ensures StartedFrom(queue, tasks, started, ts, st, k, maximumTasks, tickDisplacement, tickFrequency)
  {
    ts, st := tasks, started;
    ghost var done: set<int> := {};
    var remaining := queue;
    while remaining != {}
      invariant remaining + done == queue && remaining !! done
      invariant StartedFrom(done, tasks, started, ts, st, k, maximumTasks, tickDisplacement, tickFrequency)
      decreases |remaining|
    {
      var s := Pick(remaining);
      var delay := StartDelay(s, k, maximumTasks, tickDisplacement);
      StartOneMore(done, tasks, started, ts, st, s, k, maximumTasks, tickDisplacement, tickFrequency);
      ts := ts[s := Some(|st|)];
      st := st + [TimerStart(s, delay, tickFrequency)];
      remaining := remaining - {s};
      done := done + {s};
    }
  }

  lemma AppendWrite(written: seq<WriterCall>, id: Uuid)
    requires WritesOnce(written) && id !in SetOf(written)
    ensures WritesOnce(written + [WriteData(id)])
    ensures SetOf(written + [WriteData(id)]) == SetOf(written) + {id}
  {
    var w := written + [WriteData(id)];
    forall i | 0 <= i < |written| ensures w[i].player != id {
      assert written[i].player in SetOf(written);
    }
    assert w[|written|].player == id;
    forall x | x in SetOf(w) ensures x in SetOf(written) + {id} {
      var i :| 0 <= i < |w| && w[i].WriteData? && w[i].player == x;
      if i < |written| {
        assert written[i] == w[i];
      }
    }
    forall x | x in SetOf(written) ensures x in SetOf(w) {
      var i :| 0 <= i < |written| && written[i].WriteData? && written[i].player == x;
      assert w[i] == written[i];
    }
  }
}
