/** The cron scheduler (loopal-scheduler/src/task.rs, expression.rs,
    scheduler.rs, tick.rs). Instants are nanoseconds. */
module Scheduler {
  import opened Prelude

  const SECOND: int := 1_000_000_000
  const MINUTE: int := 60_000_000_000
  const MAX_LIFETIME_SECS: int := 259_200
  const MAX_TASKS: nat := 50

  // ---- cron expressions -------------------------------------------------

  /** A compiled schedule is the finite set of its occurrences: whole minutes,
      since the seconds field is always 0, within the years the schedule
      library knows. */
  type Occurrences = s: set<int> | forall o :: o in s ==> o % MINUTE == 0

  datatype CronExpression = CronExpression(occurrences: Occurrences, raw: string)

  predicate IsLeast(s: set<int>, m: int) {
    m in s && forall x :: x in s ==> m <= x
  }

  lemma {:induction false} LeastExists(s: set<int>, x: int) returns (m: int)
    requires x in s
    ensures IsLeast(s, m)
  {
    var below := set y | y in s && y < x;
    if y :| y in below {
      assert x !in below;
      m := LeastExists(below, y);
      assert m in below;
      forall z | z in s ensures m <= z {
        assert z < x ==> z in below;
      }
    } else {
      assert forall y :: y in s && y < x ==> y in below;
      m := x;
    }
  }

  function Least(s: set<int>): (m: int)
    requires exists x :: x in s
    ensures IsLeast(s, m)
  {
    assert exists m :: IsLeast(s, m) by {
      var x :| x in s;
      var m := LeastExists(s, x);
    }
    var m :| IsLeast(s, m);
    m
  }

  /** The least occurrence strictly after an instant. */
  function NextAfter(c: CronExpression, after: int): (next: Option<int>)
    ensures next.None? <==> forall o :: o in c.occurrences ==> o <= after
    ensures next.Some? ==> next.value in c.occurrences && next.value > after
    ensures next.Some? ==> forall o :: o in c.occurrences && o > after ==> next.value <= o
  {
    var later := set o | o in c.occurrences && o > after;
    assert forall o :: o in c.occurrences && o > after ==> o in later;
    if exists o :: o in later then Some(Least(later)) else None
  }

  datatype CronParseError = InvalidFieldCount(n: nat) | ParseFailed | NoOccurrence

  /** Length of `split_whitespace`. */
  function FieldCount(s: string): nat {
    if s == "" then 0
    else
      FieldCount(s[..|s| - 1]) +
      (if !IsSpace(s[|s| - 1]) && (|s| == 1 || IsSpace(s[|s| - 2])) then 1 else 0)
  }

  predicate StartsField(s: string, i: int) {
    0 <= i < |s| && !IsSpace(s[i]) && (i == 0 || IsSpace(s[i - 1]))
  }

  /** As many fields as places where one begins. */
  lemma {:induction false} FieldsBegin(s: string)
    ensures FieldCount(s) == |set i | 0 <= i < |s| && StartsField(s, i)|
  {
    var begins := set i | 0 <= i < |s| && StartsField(s, i);
    if s != "" {
      var t, last := s[..|s| - 1], |s| - 1;
      FieldsBegin(t);
      var before := set i | 0 <= i < |t| && StartsField(t, i);
      assert forall i :: 0 <= i < |t| ==> (StartsField(t, i) <==> StartsField(s, i));
      assert begins == if StartsField(s, last) then before + {last} else before;
    }
  }

  /** An occurrence lies after `now` and within a task's lifetime from then. */
  predicate OccursWithin(occurrences: Occurrences, now: int) {
    exists o :: o in occurrences && now < o <= now + MAX_LIFETIME_SECS * SECOND
  }

  /** `compile` stands for the schedule library. */
  function ParseAt(compile: string -> Option<Occurrences>, expr: string, now: int)
    : (r: Result<CronExpression, CronParseError>)
    ensures var schedule := compile("0 " + expr + " *");
            && (r.Ok? <==> FieldCount(expr) == 5 && schedule.Some? && OccursWithin(schedule.value, now))
            && (r.Ok? ==> r.value == CronExpression(schedule.value, expr))
            && (r.Err? && r.error.InvalidFieldCount? <==> FieldCount(expr) != 5)
            && (r.Err? && r.error.ParseFailed? <==> FieldCount(expr) == 5 && schedule.None?)
    ensures r.Ok? ==>
              NextAfter(r.value, now).Some? && NextAfter(r.value, now).value <= now + MAX_LIFETIME_SECS * SECOND
  {
    if FieldCount(expr) != 5 then Err(InvalidFieldCount(FieldCount(expr)))
    else
      var schedule := compile("0 " + expr + " *");
      if schedule.None? then Err(ParseFailed)
      else
        var c := CronExpression(schedule.value, expr);
        var next := NextAfter(c, now);
        var limit := now + MAX_LIFETIME_SECS * SECOND;
        if next.None? || next.value > limit then Err(NoOccurrence) else Ok(c)
  }

  // ---- tasks ------------------------------------------------------------

  datatype Task = Task(id: string, cron: CronExpression, prompt: string, recurring: bool, createdAt: int,
                       lastFired: Option<int>)

  function TruncateToSecs(t: int): int {
    t - t % SECOND
  }

  function Reference(t: Task): int {
    TruncateToSecs(if t.lastFired.Some? then t.lastFired.value else t.createdAt)
  }

  predicate ShouldFire(t: Task, now: int) {
    var next := NextAfter(t.cron, Reference(t));
    next.Some? && next.value <= now
  }

  /** `num_seconds` drops the fraction, towards zero. */
  function NumSeconds(d: int): int {
    if d >= 0 then d / SECOND else -(-d / SECOND)
  }

  predicate IsExpired(t: Task, now: int) {
    NumSeconds(now - t.createdAt) > MAX_LIFETIME_SECS
  }

  /** A task outlives its nominal lifetime by up to one second. */
  lemma ExpiredExactly(t: Task, now: int)
    ensures IsExpired(t, now) <==> now - t.createdAt >= (MAX_LIFETIME_SECS + 1) * SECOND
  {
  }

  /** A nanosecond before that second is over it is still alive. */
  lemma OutlivesItsLifetime(t: Task)
    ensures !IsExpired(t, t.createdAt + (MAX_LIFETIME_SECS + 1) * SECOND - 1)
    ensures IsExpired(t, t.createdAt + (MAX_LIFETIME_SECS + 1) * SECOND)
  {
    ExpiredExactly(t, t.createdAt + (MAX_LIFETIME_SECS + 1) * SECOND - 1);
    ExpiredExactly(t, t.createdAt + (MAX_LIFETIME_SECS + 1) * SECOND);
  }

  /** Occurrences lie on whole seconds, so truncating the reference loses none:
      the next one is the same, and one that is due is due by the second. */
  lemma TruncationIsHarmless(c: CronExpression, t: int)
    ensures NextAfter(c, TruncateToSecs(t)) == NextAfter(c, t)
    ensures forall o :: o in c.occurrences ==> (o <= t <==> o <= TruncateToSecs(t))
  {
    forall o | o in c.occurrences ensures o <= t <==> o <= TruncateToSecs(t) {
      WholeMinuteIsWholeSecond(o, t);
    }
  }

  lemma WholeMinuteIsWholeSecond(o: int, t: int)
    requires o % MINUTE == 0
    ensures o <= t <==> o <= TruncateToSecs(t)
  {
    assert o == SECOND * (60 * (o / MINUTE));
    assert TruncateToSecs(t) == SECOND * (t / SECOND);
    if o <= t {
      assert 60 * (o / MINUTE) <= t / SECOND;
    }
  }

  // ---- when a task is due, by the clock ---------------------------------

  /** The last fire, or the creation. */
  function LastUsed(t: Task): int {
    if t.lastFired.Some? then t.lastFired.value else t.createdAt
  }

  predicate IsAlive(t: Task, now: int) {
    now - t.createdAt < (MAX_LIFETIME_SECS + 1) * SECOND
  }

  /** An occurrence lies after the last use and has come. */
  predicate IsDue(t: Task, now: int) {
    exists o :: o in t.cron.occurrences && LastUsed(t) < o <= now
  }

  function DueNow(now: int): Task -> bool {
    (t: Task) => IsAlive(t, now) && IsDue(t, now)
  }

  function LeftNow(now: int): Task -> bool {
    (t: Task) => IsAlive(t, now) && (t.recurring || !IsDue(t, now))
  }

  function StampNow(now: int): Task -> Task {
    (t: Task) => if IsAlive(t, now) && IsDue(t, now) then t.(lastFired := Some(now)) else t
  }

  // ---- one tick ---------------------------------------------------------

  datatype Trigger = Trigger(taskId: string, prompt: string, firedAt: int)

  predicate FiresAt(t: Task, now: int) {
    !IsExpired(t, now) && ShouldFire(t, now)
  }

  function Fires(now: int): Task -> bool {
    (t: Task) => FiresAt(t, now)
  }

  predicate StaysAt(t: Task, now: int) {
    !IsExpired(t, now) && !(FiresAt(t, now) && !t.recurring)
  }

  function Stays(now: int): Task -> bool {
    (t: Task) => StaysAt(t, now)
  }

  function Mark(t: Task, now: int): Task {
    if FiresAt(t, now) then t.(lastFired := Some(now)) else t
  }

  function Marker(now: int): Task -> Task {
    (t: Task) => Mark(t, now)
  }

  function TriggerFor(now: int): Task -> Trigger {
    (t: Task) => Trigger(t.id, t.prompt, now)
  }

  /** The tasks after a tick: those neither expired nor fired for good, in
      order, the fired ones marked. */
  function Ticked(ts: seq<Task>, now: int): seq<Task> {
    Map(Marker(now), Filter(Stays(now), ts))
  }

  /** One trigger per due task that has not expired, in order. */
  function Triggered(ts: seq<Task>, now: int): seq<Trigger> {
    Map(TriggerFor(now), Filter(Fires(now), ts))
  }

  /** The truncated reference and the whole seconds of the lifetime decide what
      the clock decides. */
  lemma FiresExactly(t: Task, now: int)
    ensures FiresAt(t, now) <==> IsAlive(t, now) && IsDue(t, now)
    ensures StaysAt(t, now) <==> IsAlive(t, now) && (t.recurring || !IsDue(t, now))
  {
    ExpiredExactly(t, now);
    TruncationIsHarmless(t.cron, LastUsed(t));
    var next := NextAfter(t.cron, LastUsed(t));
    if next.Some? && next.value <= now {
      assert IsDue(t, now);
    }
  }

  /** What a tick triggers and leaves, in terms of the clock alone. */
  lemma TickExactly(ts: seq<Task>, now: int)
    ensures Triggered(ts, now) == Map(TriggerFor(now), Filter(DueNow(now), ts))
    ensures Ticked(ts, now) == Map(StampNow(now), Filter(LeftNow(now), ts))
  {
    forall t: Task ensures Fires(now)(t) == DueNow(now)(t) && Stays(now)(t) == LeftNow(now)(t)
                           && Marker(now)(t) == StampNow(now)(t) {
      FiresExactly(t, now);
    }
    FilterAgree(Fires(now), DueNow(now), ts);
    FilterAgree(Stays(now), LeftNow(now), ts);
  }

  lemma {:induction false} RemovalIsFiltering(ts: seq<Task>, now: int, gone: set<int>)
    requires forall i :: 0 <= i < |ts| ==> (i in gone <==> !StaysAt(ts[i], now))
    ensures Without(Map(Marker(now), ts), gone) == Ticked(ts, now)
  {
    if ts != [] {
      var t := ts[..|ts| - 1];
      RemovalIsFiltering(t, now, gone);
      assert Map(Marker(now), ts)[..|t|] == Map(Marker(now), t);
    }
  }

  /** `sort_unstable` and `dedup` of indices below `n`. */
  function SortDedup(idx: seq<int>, n: nat): (r: seq<int>)
    ensures Ascending(r)
    ensures forall i :: i in r <==> i in idx && 0 <= i < n
  {
    if n == 0 then []
    else
      var below := SortDedup(idx, n - 1);
      assert forall k :: 0 <= k < |below| ==> below[k] in below;
      below + (if n - 1 in idx then [n - 1] else [])
  }

  datatype CronJobInfo = CronJobInfo(id: string, cronExpr: string, prompt: string, recurring: bool, createdAt: int,
                                     nextFire: Option<int>)

  function NextFire(t: Task, now: int): Option<int> {
    var next := NextAfter(t.cron, Reference(t));
    if next.None? then None
    else if next.value > now then next
    else NextAfter(t.cron, now)
  }

  function Info(now: int): Task -> CronJobInfo {
    (t: Task) => CronJobInfo(t.id, t.cron.raw, t.prompt, t.recurring, t.createdAt, NextFire(t, now))
  }

  /** The listed time is the next occurrence after both now and the last use:
      a task that is already due shows its following occurrence. */
  lemma NextFireIsAhead(t: Task, now: int)
    ensures NextFire(t, now) == NextAfter(t.cron, Max(now, Reference(t)))
  {
  }

  datatype SchedulerError = InvalidCron(e: CronParseError) | TooManyTasks(n: nat)

  predicate Unused(ts: seq<Task>, id: string) {
    forall t :: t in ts ==> t.id != id
  }

  function OtherId(id: string): Task -> bool {
    (t: Task) => t.id != id
  }

  predicate DistinctIds(ts: seq<Task>) {
    forall i, j :: 0 <= i < j < |ts| ==> ts[i].id != ts[j].id
  }

  class CronScheduler {
    var tasks: seq<Task>

    ghost predicate Valid()
      reads this
    {
      DistinctIds(tasks) && |tasks| <= MAX_TASKS
    }

    constructor ()
      ensures Valid() && tasks == []
    {
      tasks := [];
    }

    /** `id` is the generated identifier: any one not in use. */
    method Add(compile: string -> Option<Occurrences>, cronExpr: string, prompt: string, recurring: bool, now: int,
               id: string) returns (r: Result<string, SchedulerError>)
      requires Valid() && Unused(tasks, id)
      modifies this
      ensures Valid()
      ensures var cron := ParseAt(compile, cronExpr, now);
              match cron
              case Err(e) => r == Err(InvalidCron(e)) && tasks == old(tasks)
              case Ok(c) =>
                if |old(tasks)| >= MAX_TASKS then r == Err(TooManyTasks(MAX_TASKS)) && tasks == old(tasks)
                else r == Ok(id) && tasks == old(tasks) + [Task(id, c, prompt, recurring, now, None)]
    {
      var cron := ParseAt(compile, cronExpr, now);
      if cron.Err? {
        return Err(InvalidCron(cron.error));
      }
      if |tasks| >= MAX_TASKS {
        return Err(TooManyTasks(MAX_TASKS));
      }
      tasks := tasks + [Task(id, cron.value, prompt, recurring, now, None)];
      r := Ok(id);
    }

    method Remove(id: string) returns (found: bool)
      requires Valid()
      modifies this
      ensures Valid()
      ensures tasks == Filter(OtherId(id), old(tasks))
      ensures forall t :: t in tasks <==> t in old(tasks) && t.id != id
      ensures found <==> !Unused(old(tasks), id)
    {
      var before := tasks;
      tasks := Filter(OtherId(id), tasks);
      found := |tasks| < |before|;
      FilterKeepsIdsDistinct(OtherId(id), before);
      FilterIn(OtherId(id), before);
      FilterDropsNone(OtherId(id), before);
    }

    /** Every task in order, with the time it is expected to fire next. */
    method List(now: int) returns (r: seq<CronJobInfo>)
      ensures |r| == |tasks|
      ensures forall i :: 0 <= i < |r| ==>
                var t := tasks[i];
                && r[i].id == t.id && r[i].cronExpr == t.cron.raw && r[i].prompt == t.prompt
                && r[i].recurring == t.recurring && r[i].createdAt == t.createdAt
                && r[i].nextFire == NextAfter(t.cron, Max(now, Reference(t)))
    {
      r := Map(Info(now), tasks);
      forall i | 0 <= i < |r| ensures r[i].nextFire == NextAfter(tasks[i].cron, Max(now, Reference(tasks[i]))) {
        NextFireIsAhead(tasks[i], now);
      }
    }

    /** One iteration of the tick loop, between taking the lock and sending. */
    method Tick(now: int) returns (triggers: seq<Trigger>)
      requires Valid()
      modifies this
      ensures Valid()
      ensures tasks == Ticked(old(tasks), now) == Map(StampNow(now), Filter(LeftNow(now), old(tasks)))
      ensures triggers == Triggered(old(tasks), now)
      ensures triggers == Map((t: Task) => Trigger(t.id, t.prompt, now), Filter(DueNow(now), old(tasks)))
    {
      ghost var ts := tasks;
      TickExactly(ts, now);
      var toRemove, triggered := MarkDue(now);
      var oneShots := OneShots(tasks, triggered);
      toRemove := SortDedup(toRemove + oneShots, |tasks|);
      RemovesExactly(ts, tasks, now, triggered, oneShots);
      RemovalIsFiltering(ts, now, set j | j in toRemove);
      tasks := RemoveIndices(tasks, toRemove);
      triggers := Seconds(triggered);
      TickedKeepsIds(ts, now);
    }

    /** The loop over the tasks: note the expired ones, mark and note the due. */
    method MarkDue(now: int) returns (expired: seq<int>, triggered: seq<(int, Trigger)>)
      modifies this
      ensures tasks == Map(Marker(now), old(tasks))
      ensures forall j :: j in expired <==> 0 <= j < |tasks| && IsExpired(old(tasks)[j], now)
      ensures forall j :: j in Firsts(triggered) <==> 0 <= j < |tasks| && FiresAt(old(tasks)[j], now)
      ensures forall j :: 0 <= j < |tasks| ==> tasks[j] == StampNow(now)(old(tasks)[j])
      ensures Seconds(triggered) == Triggered(old(tasks), now)
    {
      ghost var before := tasks;
      ghost var ts := tasks;
      expired, triggered := [], [];
      for i := 0 to |tasks|
        invariant |tasks| == |ts| && Marking(ts, i, now, tasks, expired, triggered)
      {
        var task := tasks[i];
        MarkStep(ts, i, now, expired, triggered);
        if IsExpired(task, now) {
          expired := expired + [i];
          continue;
        }
        if ShouldFire(task, now) {
          var trigger := Trigger(task.id, task.prompt, now);
          triggered := triggered + [(i, trigger)];
          tasks := tasks[i := task.(lastFired := Some(now))];
        }
      }
      assert ts[..|ts|] == ts;
      forall j | 0 <= j < |tasks| ensures tasks[j] == StampNow(now)(before[j]) {
        FiresExactly(before[j], now);
      }
    }
  }

  /** The loop has handled the first `n` tasks. */
  predicate Marking(ts: seq<Task>, n: nat, now: int, tasks: seq<Task>, expired: seq<int>,
                    triggered: seq<(int, Trigger)>)
    requires n <= |ts|
  {
    && tasks == MarkedUpTo(ts, n, now)
    && expired == IndicesWhere(Expired(now), ts, n)
    && Firsts(triggered) == IndicesWhere(Fires(now), ts, n)
    && Seconds(triggered) == Triggered(ts[..n], now)
  }

  lemma MarkStep(ts: seq<Task>, i: nat, now: int, expired: seq<int>, triggered: seq<(int, Trigger)>)
    requires i < |ts| && Marking(ts, i, now, MarkedUpTo(ts, i, now), expired, triggered)
    ensures var tasks, t := MarkedUpTo(ts, i, now), ts[i];
            && tasks[i] == t
            && (IsExpired(t, now) ==> Marking(ts, i + 1, now, tasks, expired + [i], triggered))
            && (!IsExpired(t, now) && !ShouldFire(t, now) ==> Marking(ts, i + 1, now, tasks, expired, triggered))
            && (!IsExpired(t, now) && ShouldFire(t, now) ==>
                  Marking(ts, i + 1, now, tasks[i := t.(lastFired := Some(now))], expired,
                          triggered + [(i, Trigger(t.id, t.prompt, now))]))
  {
    NextTriggered(ts, i, now);
    NextMarked(ts, i, now);
    PairAdded(triggered, i, Trigger(ts[i].id, ts[i].prompt, now));
  }

  /** The first `n` tasks are marked, the others are not yet. */
  function MarkedUpTo(ts: seq<Task>, n: nat, now: int): seq<Task>
    requires n <= |ts|
  {
    Map(Marker(now), ts[..n]) + ts[n..]
  }

  lemma NextMarked(ts: seq<Task>, i: nat, now: int)
    requires i < |ts|
    ensures MarkedUpTo(ts, i, now)[i] == ts[i]
    ensures MarkedUpTo(ts, i + 1, now) == MarkedUpTo(ts, i, now)[i := Mark(ts[i], now)]
    ensures !FiresAt(ts[i], now) ==> MarkedUpTo(ts, i + 1, now) == MarkedUpTo(ts, i, now)
  {
    assert ts[..i + 1] == ts[..i] + [ts[i]];
  }

  function Expired(now: int): Task -> bool {
    (t: Task) => IsExpired(t, now)
  }

  /** Ascending indices below `n` of the tasks that satisfy `p`. */
  function IndicesWhere(p: Task -> bool, ts: seq<Task>, n: nat): (r: seq<int>)
    requires n <= |ts|
    ensures forall j :: j in r <==> 0 <= j < n && p(ts[j])
  {
    if n == 0 then [] else IndicesWhere(p, ts, n - 1) + (if p(ts[n - 1]) then [n - 1] else [])
  }

  lemma NextTriggered(ts: seq<Task>, i: nat, now: int)
    requires i < |ts|
    ensures Triggered(ts[..i + 1], now) ==
              Triggered(ts[..i], now) + (if FiresAt(ts[i], now) then [Trigger(ts[i].id, ts[i].prompt, now)] else [])
  {
    assert ts[..i + 1][..i] == ts[..i];
  }

  /** Expired and one-shot indices together are those of the tasks that go. */
  lemma RemovesExactly(ts: seq<Task>, marked: seq<Task>, now: int, triggered: seq<(int, Trigger)>, oneShots: seq<int>)
    requires marked == Map(Marker(now), ts)
    requires forall j :: j in Firsts(triggered) <==> 0 <= j < |ts| && FiresAt(ts[j], now)
    requires oneShots == OneShots(marked, triggered)
    ensures forall j :: 0 <= j < |ts| ==> (j in oneShots <==> FiresAt(ts[j], now) && !ts[j].recurring)
  {
  }

  lemma PairAdded(ps: seq<(int, Trigger)>, i: int, t: Trigger)
    ensures Firsts(ps + [(i, t)]) == Firsts(ps) + [i] && Seconds(ps + [(i, t)]) == Seconds(ps) + [t]
  {
  }

  function Firsts(ps: seq<(int, Trigger)>): seq<int> {
    Map((p: (int, Trigger)) => p.0, ps)
  }

  function Seconds(ps: seq<(int, Trigger)>): seq<Trigger> {
    Map((p: (int, Trigger)) => p.1, ps)
  }

  /** Indices of the triggered tasks that do not recur. */
  function OneShots(ts: seq<Task>, triggered: seq<(int, Trigger)>): (r: seq<int>)
    requires forall j :: j in Firsts(triggered) ==> 0 <= j < |ts|
    ensures forall i :: i in r <==> i in Firsts(triggered) && !ts[i].recurring
  {
    OneShotsOf(ts, Firsts(triggered))
  }

  function OneShotsOf(ts: seq<Task>, idx: seq<int>): (r: seq<int>)
    requires forall j :: j in idx ==> 0 <= j < |ts|
    ensures forall i :: i in r <==> i in idx && !ts[i].recurring
  {
    if idx == [] then []
    else
      var before, last := idx[..|idx| - 1], idx[|idx| - 1];
      assert last in idx && forall j :: j in before ==> j in idx;
      assert forall j :: j in idx ==> j in before || j == last;
      OneShotsOf(ts, before) + (if ts[last].recurring then [] else [last])
  }

  lemma {:induction false} FilterKeepsIdsDistinct(keep: Task -> bool, ts: seq<Task>)
    requires DistinctIds(ts)
    ensures DistinctIds(Filter(keep, ts))
  {
    if ts != [] {
      var t, last := ts[..|ts| - 1], ts[|ts| - 1];
      FilterKeepsIdsDistinct(keep, t);
      FilterIn(keep, t);
      forall i | 0 <= i < |Filter(keep, t)| ensures Filter(keep, t)[i].id != last.id {
        assert Filter(keep, t)[i] in t;
      }
    }
  }

  lemma {:induction false} FilterDropsNone(keep: Task -> bool, ts: seq<Task>)
    ensures |Filter(keep, ts)| == |ts| <==> forall t :: t in ts ==> keep(t)
  {
    if ts != [] {
      var t, last := ts[..|ts| - 1], ts[|ts| - 1];
      assert ts == t + [last];
      FilterDropsNone(keep, t);
      FilterIn(keep, t);
    }
  }

  lemma TickedKeepsIds(ts: seq<Task>, now: int)
    requires DistinctIds(ts)
    ensures DistinctIds(Ticked(ts, now)) && |Ticked(ts, now)| <= |ts|
  {
    FilterKeepsIdsDistinct(Stays(now), ts);
    FilterIn(Stays(now), ts);
  }

  // ---- every run --------------------------------------------------------

  /** What one fire used: the occurrence it answered and the clock reading. */
  datatype Fire = Fire(occurrence: int, at: int)

  /** A task together with its fires so far. */
  datatype Tracked = Tracked(task: Task, fires: seq<Fire>)

  /** Live tasks in order, and those that are gone. */
  datatype History = History(live: seq<Tracked>, gone: seq<Tracked>)

  /** `now` is the clock reading of the operation; it may go backwards. */
  datatype Op =
    | Add(expr: string, prompt: string, recurring: bool, now: int, id: string)
    | Remove(id: string)
    | Tick(now: int)

  function TaskOf(h: Tracked): Task {
    h.task
  }

  function Tasks(h: History): seq<Task> {
    Map(TaskOf, h.live)
  }

  function Advance(h: Tracked, now: int): Tracked {
    if FiresAt(h.task, now)
    then Tracked(Mark(h.task, now), h.fires + [Fire(NextAfter(h.task.cron, Reference(h.task)).value, now)])
    else h
  }

  function Advancer(now: int): Tracked -> Tracked {
    (h: Tracked) => Advance(h, now)
  }

  function Survives(now: int): Tracked -> bool {
    (h: Tracked) => StaysAt(h.task, now)
  }

  function Ends(now: int): Tracked -> bool {
    (h: Tracked) => !StaysAt(h.task, now)
  }

  function Keeps(id: string): Tracked -> bool {
    (h: Tracked) => h.task.id != id
  }

  function Loses(id: string): Tracked -> bool {
    (h: Tracked) => h.task.id == id
  }

  function Next(compile: string -> Option<Occurrences>, h: History, op: Op): History {
    match op
    case Add(expr, prompt, recurring, now, id) =>
      var cron := ParseAt(compile, expr, now);
      if cron.Ok? && |h.live| < MAX_TASKS && Unused(Tasks(h), id)
      then h.(live := h.live + [Tracked(Task(id, cron.value, prompt, recurring, now, None), [])])
      else h
    case Remove(id) => History(Filter(Keeps(id), h.live), h.gone + Filter(Loses(id), h.live))
    case Tick(now) =>
      History(Map(Advancer(now), Filter(Survives(now), h.live)),
              h.gone + Map(Advancer(now), Filter(Ends(now), h.live)))
  }

  function Run(compile: string -> Option<Occurrences>, ops: seq<Op>): History {
    if ops == [] then History([], []) else Next(compile, Run(compile, ops[..|ops| - 1]), ops[|ops| - 1])
  }

  /** The tracked run is the run of the scheduler itself. */
  lemma TickIsTheSchedulers(compile: string -> Option<Occurrences>, h: History, now: int)
    ensures Tasks(Next(compile, h, Tick(now))) == Ticked(Tasks(h), now)
  {
    FilterTasks(h.live, Survives(now), Stays(now));
    var stay := Filter(Survives(now), h.live);
    assert Ticked(Tasks(h), now) == Map(Marker(now), Map(TaskOf, stay));
    forall i | 0 <= i < |stay| ensures Tasks(Next(compile, h, Tick(now)))[i] == Ticked(Tasks(h), now)[i] {
      assert TaskOf(Advance(stay[i], now)) == Mark(stay[i].task, now);
    }
  }

  lemma RemoveIsTheSchedulers(compile: string -> Option<Occurrences>, h: History, id: string)
    ensures Tasks(Next(compile, h, Remove(id))) == Filter(OtherId(id), Tasks(h))
  {
    FilterTasks(h.live, Keeps(id), OtherId(id));
  }

  function NewTask(compile: string -> Option<Occurrences>, op: Op): Task
    requires op.Add? && ParseAt(compile, op.expr, op.now).Ok?
  {
    Task(op.id, ParseAt(compile, op.expr, op.now).value, op.prompt, op.recurring, op.now, None)
  }

  predicate Accepted(compile: string -> Option<Occurrences>, h: History, op: Op) {
    op.Add? && ParseAt(compile, op.expr, op.now).Ok? && |h.live| < MAX_TASKS && Unused(Tasks(h), op.id)
  }

  lemma AddIsTheSchedulers(compile: string -> Option<Occurrences>, h: History, op: Op)
    requires op.Add?
    ensures Tasks(Next(compile, h, op)) ==
              if Accepted(compile, h, op) then Tasks(h) + [NewTask(compile, op)] else Tasks(h)
  {
  }

  lemma {:induction false} FilterTasks(hs: seq<Tracked>, keep: Tracked -> bool, keepTask: Task -> bool)
    requires forall h: Tracked :: keep(h) == keepTask(h.task)
    ensures Map(TaskOf, Filter(keep, hs)) == Filter(keepTask, Map(TaskOf, hs))
  {
    if hs != [] {
      var t := hs[..|hs| - 1];
      FilterTasks(t, keep, keepTask);
      assert Map(TaskOf, hs)[..|t|] == Map(TaskOf, t);
    }
  }

  // ---- what every task's history looks like -----------------------------

  /** The instant the next fire is counted from. */
  function LastUse(h: Tracked, i: nat): int
    requires i <= |h.fires|
  {
    if i == 0 then h.task.createdAt else h.fires[i - 1].at
  }

  /** Fire `i` answers an occurrence after the last use, by the clock, while
      the task was within its lifetime. */
  predicate FireOk(h: Tracked, i: nat)
    requires i < |h.fires|
  {
    var f := h.fires[i];
    && f.occurrence in h.task.cron.occurrences
    && TruncateToSecs(LastUse(h, i)) < f.occurrence <= f.at
    && f.at - h.task.createdAt < (MAX_LIFETIME_SECS + 1) * SECOND
  }

  predicate HistoryOk(h: Tracked) {
    && (forall i :: 0 <= i < |h.fires| ==> FireOk(h, i))
    && h.task.lastFired == (if h.fires == [] then None else Some(h.fires[|h.fires| - 1].at))
    && (!h.task.recurring ==> |h.fires| <= 1)
  }

  predicate LiveOk(h: Tracked) {
    HistoryOk(h) && (!h.task.recurring ==> h.fires == [])
  }

  predicate AllOk(h: History) {
    && (forall x :: x in h.live ==> LiveOk(x))
    && (forall x :: x in h.gone ==> HistoryOk(x))
    && |h.live| <= MAX_TASKS && DistinctIds(Tasks(h))
  }

  lemma AdvanceOk(h: Tracked, now: int)
    requires LiveOk(h)
    ensures HistoryOk(Advance(h, now)) && (StaysAt(h.task, now) ==> LiveOk(Advance(h, now)))
  {
    if FiresAt(h.task, now) {
      var g := Advance(h, now);
      ExpiredExactly(h.task, now);
      assert Reference(h.task) == TruncateToSecs(LastUse(h, |h.fires|));
      forall i | 0 <= i < |g.fires| ensures FireOk(g, i) {
        if i < |h.fires| {
          assert FireOk(h, i);
        }
      }
    }
  }

  lemma TickKeepsOk(compile: string -> Option<Occurrences>, h: History, now: int)
    requires AllOk(h)
    ensures AllOk(Next(compile, h, Tick(now)))
  {
    var t := Next(compile, h, Tick(now));
    var stay, end := Filter(Survives(now), h.live), Filter(Ends(now), h.live);
    FilterIn(Survives(now), h.live);
    FilterIn(Ends(now), h.live);
    forall x | x in t.live ensures LiveOk(x) {
      var i :| 0 <= i < |stay| && x == Advance(stay[i], now);
      assert stay[i] in stay;
      AdvanceOk(stay[i], now);
    }
    forall x | x in t.gone ensures HistoryOk(x) {
      if x !in h.gone {
        assert x in Map(Advancer(now), end);
        var i :| 0 <= i < |end| && x == Advance(end[i], now);
        assert end[i] in end;
        AdvanceOk(end[i], now);
      }
    }
    TickIsTheSchedulers(compile, h, now);
    TickedKeepsIds(Tasks(h), now);
  }

  lemma NextKeepsOk(compile: string -> Option<Occurrences>, h: History, op: Op)
    requires AllOk(h)
    ensures AllOk(Next(compile, h, op))
  {
    match op
    case Add(_, _, _, _, _) =>
      if Accepted(compile, h, op) {
        AddIsTheSchedulers(compile, h, op);
      }
    case Remove(id) =>
      FilterIn(Keeps(id), h.live);
      FilterIn(Loses(id), h.live);
      RemoveIsTheSchedulers(compile, h, id);
      FilterKeepsIdsDistinct(OtherId(id), Tasks(h));
    case Tick(now) => TickKeepsOk(compile, h, now);
  }

  lemma {:induction false} ReachableOk(compile: string -> Option<Occurrences>, ops: seq<Op>)
    ensures AllOk(Run(compile, ops))
  {
    if ops != [] {
      ReachableOk(compile, ops[..|ops| - 1]);
      NextKeepsOk(compile, Run(compile, ops[..|ops| - 1]), ops[|ops| - 1]);
    }
  }

  function MinuteOf(t: int): int {
    t / MINUTE
  }

  /** Later fires answer later occurrences, in later seconds and in later
      minutes, whatever the clock did in between. */
  lemma {:induction false} FiresAdvance(h: Tracked, i: nat, j: nat)
    requires HistoryOk(h) && i < j < |h.fires|
    ensures h.fires[i].occurrence < h.fires[j].occurrence
    ensures TruncateToSecs(h.fires[i].at) < TruncateToSecs(h.fires[j].at)
    ensures MinuteOf(h.fires[i].at) < MinuteOf(h.fires[j].at)
  {
    assert FireOk(h, i) && FireOk(h, j);
    if i < j - 1 {
      FiresAdvance(h, i, j - 1);
      NextFireAdvances(h, j - 1);
    } else {
      NextFireAdvances(h, i);
    }
  }

  lemma NextFireAdvances(h: Tracked, i: nat)
    requires HistoryOk(h) && i + 1 < |h.fires|
    ensures h.fires[i].occurrence < h.fires[i + 1].occurrence
    ensures TruncateToSecs(h.fires[i].at) < TruncateToSecs(h.fires[i + 1].at)
    ensures MinuteOf(h.fires[i].at) < MinuteOf(h.fires[i + 1].at)
  {
    assert FireOk(h, i) && FireOk(h, i + 1);
    var f, g := h.fires[i], h.fires[i + 1];
    WholeMinuteIsWholeSecond(f.occurrence, f.at);
    WholeMinuteIsWholeSecond(g.occurrence, g.at);
    WholeMinuteIsWholeSecond(g.occurrence, f.at);
    assert g.occurrence == MINUTE * (g.occurrence / MINUTE);
  }

  /** How often a task has fired is bounded by its schedule. */
  lemma FireCountBound(h: Tracked)
    requires HistoryOk(h) && h.fires != []
    ensures |h.fires| <= |set o | o in h.task.cron.occurrences
                            && TruncateToSecs(h.task.createdAt) < o <= h.fires[|h.fires| - 1].at|
  {
    var last := h.fires[|h.fires| - 1].at;
    var window := set o | o in h.task.cron.occurrences && TruncateToSecs(h.task.createdAt) < o <= last;
    var used := set i | 0 <= i < |h.fires| :: h.fires[i].occurrence;
    UsedOccurrences(h, |h.fires|);
    forall i | 0 <= i < |h.fires| ensures h.fires[i].occurrence in window {
      assert FireOk(h, i) && FireOk(h, 0) && FireOk(h, |h.fires| - 1);
      if i > 0 {
        FiresAdvance(h, 0, i);
      }
      if i < |h.fires| - 1 {
        FiresAdvance(h, i, |h.fires| - 1);
      }
    }
    assert used <= window;
    SubsetSize(used, window);
  }

  lemma {:induction false} UsedOccurrences(h: Tracked, n: nat)
    requires HistoryOk(h) && n <= |h.fires|
    ensures |set i | 0 <= i < n :: h.fires[i].occurrence| == n
  {
    if n > 0 {
      UsedOccurrences(h, n - 1);
      var before := set i | 0 <= i < n - 1 :: h.fires[i].occurrence;
      var all := set i | 0 <= i < n :: h.fires[i].occurrence;
      forall i | 0 <= i < n - 1 ensures h.fires[i].occurrence != h.fires[n - 1].occurrence {
        FiresAdvance(h, i, n - 1);
      }
      assert all == before + {h.fires[n - 1].occurrence};
    }
  }

  lemma SubsetSize(a: set<int>, b: set<int>)
    requires a <= b
    ensures |a| <= |b|
  {
    assert b == a + (b - a);
  }

  // ---- an accepted task fires -------------------------------------------

  /** Nothing in these operations removes the task or reaches its time. */
  predicate Quiet(ops: seq<Op>, id: string, first: int) {
    forall op :: op in ops ==> (op.Remove? ==> op.id != id) && (op.Tick? ==> op.now < first)
  }

  /** An accepted task has its first occurrence within its lifetime; before
      that occurrence it is neither expired nor due, and from it on it is due
      unless expired. */
  lemma AcceptedTaskIsPending(compile: string -> Option<Occurrences>, op: Op, now: int)
    requires op.Add? && ParseAt(compile, op.expr, op.now).Ok?
    ensures var t := NewTask(compile, op);
            var first := NextAfter(t.cron, Reference(t));
            && first.Some? && op.now < first.value <= op.now + MAX_LIFETIME_SECS * SECOND
            && (now < first.value ==> StaysAt(t, now) && !FiresAt(t, now))
            && (now >= first.value ==> (FiresAt(t, now) <==> !IsExpired(t, now)))
  {
    var t := NewTask(compile, op);
    TruncationIsHarmless(t.cron, op.now);
    ExpiredExactly(t, now);
  }

  /** The task waits unchanged until its time comes. */
  lemma {:induction false} TaskWaits(compile: string -> Option<Occurrences>, h: History, x: Tracked, first: int,
                                     ops: seq<Op>)
    requires x in h.live && Quiet(ops, x.task.id, first)
    requires forall op :: op in ops && op.Tick? ==> StaysAt(x.task, op.now) && !FiresAt(x.task, op.now)
    ensures x in After(compile, h, ops).live
  {
    if ops != [] {
      var before, op := ops[..|ops| - 1], ops[|ops| - 1];
      assert op in ops && forall o :: o in before ==> o in ops;
      TaskWaits(compile, h, x, first, before);
      var g := After(compile, h, before);
      match op
      case Add(_, _, _, _, _) =>
      case Remove(id) => FilterIn(Keeps(id), g.live);
      case Tick(now) =>
        FilterIn(Survives(now), g.live);
        var stay := Filter(Survives(now), g.live);
        var i :| 0 <= i < |stay| && stay[i] == x;
        assert Map(Advancer(now), stay)[i] == x;
    }
  }

  /** The state after some more operations. */
  function After(compile: string -> Option<Occurrences>, h: History, ops: seq<Op>): History {
    if ops == [] then h else Next(compile, After(compile, h, ops[..|ops| - 1]), ops[|ops| - 1])
  }

  lemma DueTaskTriggers(ts: seq<Task>, t: Task, now: int)
    requires t in ts && FiresAt(t, now)
    ensures Trigger(t.id, t.prompt, now) in Triggered(ts, now)
  {
    FilterIn(Fires(now), ts);
    var due := Filter(Fires(now), ts);
    var k :| 0 <= k < |due| && due[k] == t;
    assert Triggered(ts, now)[k] == Trigger(t.id, t.prompt, now);
  }

  lemma AcceptedTaskWaits(compile: string -> Option<Occurrences>, h: History, op: Op, quiet: seq<Op>)
    requires Accepted(compile, h, op)
    ensures var t := NewTask(compile, op);
            var next := NextAfter(t.cron, Reference(t));
            next.Some? && Quiet(quiet, op.id, next.value) ==>
              t in Tasks(After(compile, Next(compile, h, op), quiet))
  {
    var t := NewTask(compile, op);
    var next := NextAfter(t.cron, Reference(t));
    if next.None? || !Quiet(quiet, op.id, next.value) {
      return;
    }
    var first := next.value;
    var h1 := Next(compile, h, op);
    var x := Tracked(t, []);
    assert h1.live[|h.live|] == x;
    forall o | o in quiet && o.Tick? ensures StaysAt(t, o.now) && !FiresAt(t, o.now) {
      AcceptedTaskIsPending(compile, op, o.now);
    }
    TaskWaits(compile, h1, x, first, quiet);
    var g := After(compile, h1, quiet);
    var i :| 0 <= i < |g.live| && g.live[i] == x;
    assert Tasks(g)[i] == t;
  }

  /** `now` is at or after the first occurrence, and before it nothing removed
      the task or ticked that late. */
  predicate IsFirstChance(t: Task, quiet: seq<Op>, now: int) {
    var first := NextAfter(t.cron, Reference(t));
    first.Some? && Quiet(quiet, t.id, first.value) && now >= first.value
  }

  /** A task accepted and not removed fires at the first tick at or after its
      first occurrence, unless that tick is already past its lifetime; and that
      tick's triggers say so. */
  lemma FiresAtItsFirstChance(compile: string -> Option<Occurrences>, h: History, op: Op, quiet: seq<Op>, now: int)
    requires Accepted(compile, h, op)
    ensures var t := NewTask(compile, op);
            var ts := Tasks(After(compile, Next(compile, h, op), quiet));
            IsFirstChance(t, quiet, now) ==>
              && t in ts
              && (FiresAt(t, now) <==> !IsExpired(t, now))
              && (!IsExpired(t, now) ==> Trigger(op.id, op.prompt, now) in Triggered(ts, now))
  {
    var t := NewTask(compile, op);
    if IsFirstChance(t, quiet, now) {
      AcceptedTaskWaits(compile, h, op, quiet);
      AcceptedTaskIsPending(compile, op, now);
      if !IsExpired(t, now) {
        DueTaskTriggers(Tasks(After(compile, Next(compile, h, op), quiet)), t, now);
      }
    }
  }

  // ---- any live task fires again ----------------------------------------

  lemma {:induction false} AfterOk(compile: string -> Option<Occurrences>, h: History, ops: seq<Op>)
    requires AllOk(h)
    ensures AllOk(After(compile, h, ops))
  {
    if ops != [] {
      AfterOk(compile, h, ops[..|ops| - 1]);
      NextKeepsOk(compile, After(compile, h, ops[..|ops| - 1]), ops[|ops| - 1]);
    }
  }

  /** With distinct ids a tick has a trigger for a task exactly if the task is
      alive and due by the clock. */
  lemma TriggersExactly(ts: seq<Task>, t: Task, now: int)
    requires DistinctIds(ts) && t in ts
    ensures (exists g :: g in Triggered(ts, now) && g.taskId == t.id) <==> IsAlive(t, now) && IsDue(t, now)
    ensures IsAlive(t, now) && IsDue(t, now) ==> Trigger(t.id, t.prompt, now) in Triggered(ts, now)
  {
    FiresExactly(t, now);
    if FiresAt(t, now) {
      DueTaskTriggers(ts, t, now);
    }
    if g :| g in Triggered(ts, now) && g.taskId == t.id {
      FilterIn(Fires(now), ts);
      var due := Filter(Fires(now), ts);
      var k :| 0 <= k < |due| && TriggerFor(now)(due[k]) == g;
      assert due[k] in due;
      var i, j :| 0 <= i < |ts| && ts[i] == t && 0 <= j < |ts| && ts[j] == due[k];
      assert i == j;
    }
  }

  /** No occurrence from the last use up to `first`, which is one. */
  predicate IsNextOccurrence(t: Task, first: int) {
    && first in t.cron.occurrences && LastUsed(t) < first
    && forall o :: o in t.cron.occurrences && LastUsed(t) < o ==> first <= o
  }

  /** Nothing removes the task, and every tick comes before `first` while it is
      alive. */
  predicate Undisturbed(t: Task, ops: seq<Op>, first: int) {
    Quiet(ops, t.id, first) && forall op :: op in ops && op.Tick? ==> IsAlive(t, op.now)
  }

  /** In any run, any task that is live, new or fired before, recurring or not,
      fires at the first tick at or after its next occurrence if it is alive
      then; a recurring one goes on with that fire as its last use. */
  lemma FiresAgain(compile: string -> Option<Occurrences>, ops: seq<Op>, x: Tracked, quiet: seq<Op>, first: int,
                   now: int)
    requires x in Run(compile, ops).live && IsNextOccurrence(x.task, first)
    requires Undisturbed(x.task, quiet, first) && now >= first
    ensures var h := After(compile, Run(compile, ops), quiet);
            && x in h.live
            && ((exists g :: g in Triggered(Tasks(h), now) && g.taskId == x.task.id) <==> IsAlive(x.task, now))
            && (IsAlive(x.task, now) && x.task.recurring ==>
                  x.task.(lastFired := Some(now)) in Tasks(Next(compile, h, Tick(now))))
  {
    ReachableOk(compile, ops);
    AfterOk(compile, Run(compile, ops), quiet);
    forall op | op in quiet && op.Tick? ensures StaysAt(x.task, op.now) && !FiresAt(x.task, op.now) {
      FiresExactly(x.task, op.now);
    }
    TaskWaits(compile, Run(compile, ops), x, first, quiet);
    var h := After(compile, Run(compile, ops), quiet);
    var i :| 0 <= i < |h.live| && h.live[i] == x;
    assert Tasks(h)[i] == x.task && x.task in Tasks(h);
    assert IsDue(x.task, now);
    TriggersExactly(Tasks(h), x.task, now);
    if IsAlive(x.task, now) && x.task.recurring {
      StampedStays(compile, h, x, now);
    }
  }

  lemma StampedStays(compile: string -> Option<Occurrences>, h: History, x: Tracked, now: int)
    requires x in h.live && IsAlive(x.task, now) && IsDue(x.task, now) && x.task.recurring
    ensures x.task.(lastFired := Some(now)) in Tasks(Next(compile, h, Tick(now)))
  {
    FiresExactly(x.task, now);
    FilterIn(Survives(now), h.live);
    var stay, after := Filter(Survives(now), h.live), Next(compile, h, Tick(now));
    var i :| 0 <= i < |stay| && stay[i] == x;
    assert Tasks(after)[i] == x.task.(lastFired := Some(now));
  }
}
