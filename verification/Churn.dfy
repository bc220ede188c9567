/** The churn bound is reached: for every R there is a run with R calls asking for `queued` in which the
    status changes 2R + 1 times. R runs of one job have all seen the row created; one after the other
    they write `queued` and `delivering`, and in the end the command expires. */
module Churn {
  import opened Canonical
  import opened CommandPolicy
  import opened CommandTable
  import opened Delivery
  import opened Discipline
  import opened EdgeMachine
  import opened HubMachine
  import opened Races
  import opened Reachable

  /** Some run ends in this state after c changes of the status of command 0 and q queued calls. */
  ghost predicate Counted(w: World, c: nat, q: nat) {
    exists r: Run :: ValidRun(r) && r.states[|r.steps|] == w
                     && ChangeCount(r, 0, |r.steps|) == c && QueuedCalls(r, 0, |r.steps|) == q
  }

  lemma {:induction false} PrefixCounts(r: Run, longer: Run, n: nat)
    requires |r.states| == |r.steps| + 1 && |longer.states| == |longer.steps| + 1 && n <= |r.steps|
    requires r.states <= longer.states && r.steps <= longer.steps
    ensures ChangeCount(longer, 0, n) == ChangeCount(r, 0, n) && QueuedCalls(longer, 0, n) == QueuedCalls(r, 0, n)
  {
    if n > 0 {
      PrefixCounts(r, longer, n - 1);
    }
  }

  lemma LongerValid(r: Run, step: Step)
    requires ValidRun(r) && WorldEnabled(r.states[|r.steps|], step)
    ensures ValidRun(Run(r.states + [WorldApply(r.states[|r.steps|], step)], r.steps + [step]))
  {
    var longer := Run(r.states + [WorldApply(r.states[|r.steps|], step)], r.steps + [step]);
    forall i | 0 <= i < |longer.steps|
      ensures StepsAt(longer, i)
    {
      if i < |r.steps| {
        assert StepsAt(r, i);
      }
    }
  }

  lemma CountExtends(w: World, step: Step, c: nat, q: nat)
    requires Counted(w, c, q) && WorldEnabled(w, step)
    ensures Counted(WorldApply(w, step), c + One(Changes(w.hub, WorldApply(w, step).hub, 0)),
                    q + One(step.HubMove? && StartsQueued(w.hub, step.move, 0)))
  {
    var r: Run :| ValidRun(r) && r.states[|r.steps|] == w
                  && ChangeCount(r, 0, |r.steps|) == c && QueuedCalls(r, 0, |r.steps|) == q;
    var n := |r.steps|;
    var longer := Run(r.states + [WorldApply(w, step)], r.steps + [step]);
    LongerValid(r, step);
    PrefixCounts(r, longer, n);
    assert longer.states[n] == w && longer.states[n + 1] == WorldApply(w, step) && longer.steps[n] == step;
    assert longer.states[|longer.steps|] == WorldApply(w, step);
  }

  /** A step of the Hub that changes no status and starts no queued call. */
  lemma PlainStep(now: int, h: Hub, step: HubStep, h': Hub, c: nat, q: nat)
    requires Counted(World(now, h, INITIAL_EDGE), c, q) && Enabled(h, now, step) && Apply(h, now, step) == h'
    requires !step.ReceiveResult? && !Changes(h, h', 0) && !StartsQueued(h, step, 0)
    ensures Counted(World(now, h', INITIAL_EDGE), c, q)
  {
    CountExtends(World(now, h, INITIAL_EDGE), HubMove(step), c, q);
  }

  // ---------------------------------------------------------------- the crew

  lemma CountedStart(now: int, input: CreateInput, collation: Collation)
    requires Usable(input, now, collation)
    ensures Counted(World(now, Ready(input, collation), INITIAL_EDGE), 0, 0)
  {
    var w := World(now, InitialHub(collation), INITIAL_EDGE);
    var r := Run([w], []);
    assert ValidRun(r) && r.states[|r.steps|] == w && ChangeCount(r, 0, 0) == 0 && QueuedCalls(r, 0, 0) == 0;
    assert Counted(w, 0, 0);
    PlainStep(now, w.hub, CreateInstallation(input.wanted.installationId, input.ownerId), Ready(input, collation), 0, 0);
  }

  lemma CountedInsert(now: int, input: CreateInput, collation: Collation)
    requires Usable(input, now, collation)
    ensures Counted(World(now, Put(Ready(input, collation), 0, Process(ApiCall(input, None), Inserting)), INITIAL_EDGE), 0, 0)
  {
    CountedStart(now, input, collation);
    var h := Ready(input, collation);
    var h1, h2 := Put(h, 0, Process(ApiCall(input, None), Checking)), Put(h, 0, Process(ApiCall(input, None), Inserting));
    PlainStep(now, h, SubmitCall(0, input), h1, 0, 0);
    PutPut(h, 0, h1.procs[0], h2.procs[0]);
    PlainStep(now, h1, CheckRuntime(0, true), h2, 0, 0);
  }

  lemma CountedCreation(now: int, input: CreateInput, collation: Collation)
    requires Usable(input, now, collation)
    ensures Counted(World(now, Made1(Ready(input, collation), 0, 0, input), INITIAL_EDGE), 0, 0)
  {
    CountedInsert(now, input, collation);
    var h, made := Ready(input, collation), ApiCall(input, Some(Made(0)));
    var h2 := Put(h, 0, Process(ApiCall(input, None), Inserting));
    var h3 := Put(h, 0, Process(made, Enqueueing(0))).(rows := h.rows[0 := NewRow(input)]);
    PutPut(h, 0, h2.procs[0], h3.procs[0]);
    PlainStep(now, h2, InsertCommand(0, 0), h3, 0, 0);
    PutPut(h.(rows := h3.rows), 0, h3.procs[0], Process(made, Setting(QueuedWrite(0), Finish)));
    PlainStep(now, h3, EnqueueJob(0), Made1(h, 0, 0, input), 0, 0);
  }

  /** Every one of the runs 1 to n has seen the row created; those up to k have since gone their way. */
  ghost predicate Crew(h: Hub, input: CreateInput, status: CommandStatus, k: nat, n: nat) {
    && h.rows == map[0 := NewRow(input).(status := status)] && h.jobs == map[0 := Job(0, false)]
    && (forall p :: p in h.procs ==> p <= n)
    && (forall p :: k < p <= n ==>
          p in h.procs && h.procs[p] == Process(JobRun(0, 1), Setting(QueuedWrite(0), ThenDeliver(NewRow(input)))))
  }

  /** A new run has fetched the row. */
  lemma Looked(now: int, h: Hub, input: CreateInput, status: CommandStatus, k: nat, n: nat, c: nat, q: nat)
    requires Counted(World(now, h, INITIAL_EDGE), c, q) && Crew(h, input, status, k, n) && !Terminal(status)
    ensures Counted(World(now, Put(h, n + 1, Process(JobRun(0, 1), Deciding(NewRow(input).(status := status)))), INITIAL_EDGE), c, q)
  {
    var p, seen := n + 1, NewRow(input).(status := status);
    var h1, h2 := Put(h, p, Process(JobRun(0, 1), Reading)), Put(h, p, Process(JobRun(0, 1), Deciding(seen)));
    PlainStep(now, h, StartRun(p, 0), h1, c, q);
    PutPut(h, p, h1.procs[p], h2.procs[p]);
    PlainStep(now, h1, GetCommand(p), h2, c, q);
  }

  lemma Decided(now: int, h: Hub, input: CreateInput, n: nat)
    requires Counted(World(now, h, INITIAL_EDGE), 0, 0) && Crew(h, input, Created, 0, n) && now < input.expiresAt
    ensures Counted(World(now, Put(h, n + 1, Process(JobRun(0, 1), Attempting(NewRow(input)))), INITIAL_EDGE), 0, 0)
  {
    var p, seen := n + 1, NewRow(input);
    Looked(now, h, input, Created, 0, n, 0, 0);
    var h2, h3 := Put(h, p, Process(JobRun(0, 1), Deciding(seen))), Put(h, p, Process(JobRun(0, 1), Attempting(seen)));
    PutPut(h, p, h2.procs[p], h3.procs[p]);
    PlainStep(now, h2, Decide(p, true), h3, 0, 0);
  }

  function Joined1(h: Hub, input: CreateInput, n: nat): Hub {
    Put(h, n + 1, Process(JobRun(0, 1), Setting(QueuedWrite(0), ThenDeliver(NewRow(input)))))
      .(attempts := if (0, 1) in h.attempts then h.attempts else h.attempts[(0, 1) := Underway])
  }

  lemma Joins(now: int, h: Hub, input: CreateInput, n: nat)
    requires Counted(World(now, h, INITIAL_EDGE), 0, 0) && Crew(h, input, Created, 0, n) && now < input.expiresAt
    ensures Counted(World(now, Joined1(h, input, n), INITIAL_EDGE), 0, 0)
  {
    Decided(now, h, input, n);
    var h3, h4 := Put(h, n + 1, Process(JobRun(0, 1), Attempting(NewRow(input)))), Joined1(h, input, n);
    PutPut(h, n + 1, h3.procs[n + 1], h4.procs[n + 1]);
    PlainStep(now, h3, CreateAttempt(n + 1), h4, 0, 0);
  }

  lemma CrewGrows(h: Hub, input: CreateInput, n: nat)
    requires Crew(h, input, Created, 0, n)
    ensures Crew(Joined1(h, input, n), input, Created, 0, n + 1)
  {
  }

  lemma {:induction false} CrewGathers(now: int, input: CreateInput, collation: Collation, n: nat) returns (h: Hub)
    requires Usable(input, now, collation)
    ensures Counted(World(now, h, INITIAL_EDGE), 0, 0) && Crew(h, input, Created, 0, n)
  {
    if n == 0 {
      CountedCreation(now, input, collation);
      h := Made1(Ready(input, collation), 0, 0, input);
      assert h.rows == map[0 := NewRow(input)];
    } else {
      var h1 := CrewGathers(now, input, collation, n - 1);
      Joins(now, h1, input, n - 1);
      CrewGrows(h1, input, n - 1);
      h := Joined1(h1, input, n - 1);
    }
  }

  // ---------------------------------------------------------------- one after the other

  /** The read and the write of a legal `setCommandStatus` of process p, with nothing in between: one
      change, and one more queued call if that is what it asks for. */
  lemma CountedWrite(now: int, h: Hub, p: ProcessId, role: Role, write: Write, next: Next, c: nat, q: nat)
    requires Counted(World(now, h, INITIAL_EDGE), c, q) && p in h.procs && h.procs[p] == Process(role, Setting(write, next))
    requires 0 in h.rows && write.commandId == 0 && CanTransition(h.rows[0].status, write.status)
    ensures Counted(World(now, Put(h, p, Process(role, Continue(0, next)))
                                 .(rows := h.rows[0 := Written(h.rows[0], write, now)]), INITIAL_EDGE),
                    c + 1, q + One(write.status == Queued))
  {
    var read := h.rows[0].status;
    var h1 := Put(h, p, Process(role, Swapping(write, read, next)));
    CountedRead(now, h, p, role, write, next, c, q);
    PutPut(h, p, h1.procs[p], Process(role, Continue(0, next)));
    var h2 := Put(h, p, Process(role, Continue(0, next))).(rows := h.rows[0 := Written(h.rows[0], write, now)]);
    assert Apply(h1, now, SwapStatus(p)) == h2 && Changes(h1, h2, 0);
    CountExtends(World(now, h1, INITIAL_EDGE), HubMove(SwapStatus(p)), c, q + One(write.status == Queued));
  }

  lemma CountedWriteTo(now: int, h: Hub, p: ProcessId, role: Role, write: Write, next: Next, c: nat, q: nat, h': Hub)
    requires Counted(World(now, h, INITIAL_EDGE), c, q) && p in h.procs && h.procs[p] == Process(role, Setting(write, next))
    requires 0 in h.rows && write.commandId == 0 && CanTransition(h.rows[0].status, write.status)
    requires h' == Put(h, p, Process(role, Continue(0, next))).(rows := h.rows[0 := Written(h.rows[0], write, now)])
    ensures Counted(World(now, h', INITIAL_EDGE), c + 1, q + One(write.status == Queued))
  {
    CountedWrite(now, h, p, role, write, next, c, q);
  }

  lemma CountedRead(now: int, h: Hub, p: ProcessId, role: Role, write: Write, next: Next, c: nat, q: nat)
    requires Counted(World(now, h, INITIAL_EDGE), c, q) && p in h.procs && h.procs[p] == Process(role, Setting(write, next))
    requires 0 in h.rows && write.commandId == 0 && CanTransition(h.rows[0].status, write.status)
    ensures Counted(World(now, Put(h, p, Process(role, Swapping(write, h.rows[0].status, next))), INITIAL_EDGE),
                    c, q + One(write.status == Queued))
  {
    var h1 := Put(h, p, Process(role, Swapping(write, h.rows[0].status, next)));
    assert Apply(h, now, ReadStatus(p)) == h1;
    CountExtends(World(now, h, INITIAL_EDGE), HubMove(ReadStatus(p)), c, q);
  }

  function HalfGone(h: Hub, input: CreateInput, k: nat): Hub {
    Put(h, k + 1, Process(JobRun(0, 1), Setting(DeliveringWrite(0), ThenPublish(NewRow(input)))))
      .(rows := map[0 := NewRow(input).(status := Queued)])
  }

  lemma HalfGoneShape(now: int, h: Hub, input: CreateInput, status: CommandStatus, k: nat)
    requires h.rows == map[0 := NewRow(input).(status := status)]
    ensures HalfGone(h, input, k) == Put(h, k + 1, Process(JobRun(0, 1), Continue(0, ThenDeliver(NewRow(input)))))
                                       .(rows := h.rows[0 := Written(h.rows[0], QueuedWrite(0), now)])
  {
    assert h.rows[0 := Written(h.rows[0], QueuedWrite(0), now)] == HalfGone(h, input, k).rows;
  }

  lemma GoesQueued(now: int, h: Hub, input: CreateInput, status: CommandStatus, k: nat, n: nat, c: nat, q: nat)
    requires Counted(World(now, h, INITIAL_EDGE), c, q) && Crew(h, input, status, k, n) && k < n
    requires status == Created || status == Delivering
    ensures Counted(World(now, HalfGone(h, input, k), INITIAL_EDGE), c + 1, q + 1)
  {
    HalfGoneShape(now, h, input, status, k);
    CountedWriteTo(now, h, k + 1, JobRun(0, 1), QueuedWrite(0), ThenDeliver(NewRow(input)), c, q, HalfGone(h, input, k));
  }

  function Gone(h: Hub, input: CreateInput, k: nat): Hub {
    Put(h, k + 1, Process(JobRun(0, 1), Publishing(NewRow(input)))).(rows := map[0 := NewRow(input).(status := Delivering)])
  }

  lemma GoneShape(now: int, h: Hub, input: CreateInput, k: nat)
    ensures var h1 := HalfGone(h, input, k);
      Put(h1, k + 1, Process(JobRun(0, 1), Continue(0, ThenPublish(NewRow(input)))))
        .(rows := h1.rows[0 := Written(h1.rows[0], DeliveringWrite(0), now)]) == Gone(h, input, k)
  {
    var h1 := HalfGone(h, input, k);
    PutPut(h.(rows := h1.rows), k + 1, h1.procs[k + 1], Gone(h, input, k).procs[k + 1]);
    assert h1.rows[0 := Written(h1.rows[0], DeliveringWrite(0), now)] == Gone(h, input, k).rows;
  }

  /** Run k + 1 takes the row to `queued` and on to `delivering`. */
  lemma Goes(now: int, h: Hub, input: CreateInput, status: CommandStatus, k: nat, n: nat, c: nat, q: nat)
    requires Counted(World(now, h, INITIAL_EDGE), c, q) && Crew(h, input, status, k, n) && k < n
    requires status == Created || status == Delivering
    ensures Counted(World(now, Gone(h, input, k), INITIAL_EDGE), c + 2, q + 1)
  {
    GoesQueued(now, h, input, status, k, n, c, q);
    GoneShape(now, h, input, k);
    CountedWriteTo(now, HalfGone(h, input, k), k + 1, JobRun(0, 1), DeliveringWrite(0), ThenPublish(NewRow(input)),
                   c + 1, q + 1, Gone(h, input, k));
  }

  lemma CrewGoes(h: Hub, input: CreateInput, status: CommandStatus, k: nat, n: nat)
    requires Crew(h, input, status, k, n) && k < n
    ensures Crew(Gone(h, input, k), input, Delivering, k + 1, n)
  {
  }

  lemma {:induction false} AllGo(now: int, h: Hub, input: CreateInput, k: nat, n: nat) returns (h': Hub)
    requires Counted(World(now, h, INITIAL_EDGE), 2 * k, k) && k <= n
    requires Crew(h, input, if k == 0 then Created else Delivering, k, n)
    ensures Counted(World(now, h', INITIAL_EDGE), 2 * n, n) && Crew(h', input, if n == 0 then Created else Delivering, n, n)
    decreases n - k
  {
    if k == n {
      h' := h;
    } else {
      var status := if k == 0 then Created else Delivering;
      Goes(now, h, input, status, k, n, 2 * k, k);
      CrewGoes(h, input, status, k, n);
      h' := AllGo(now, Gone(h, input, k), input, k + 1, n);
    }
  }

  // ---------------------------------------------------------------- the end

  function Expiring(h: Hub, n: nat): Hub {
    Put(h, n + 1, Process(JobRun(0, 1), Setting(ExpiredWrite(0), Finish)))
  }

  /** A run that starts when the command has expired decides to write that. */
  lemma ExpiryDecided(now: int, h: Hub, input: CreateInput, status: CommandStatus, n: nat, c: nat, q: nat)
    requires Counted(World(now, h, INITIAL_EDGE), c, q) && Crew(h, input, status, n, n) && !Terminal(status)
    requires input.expiresAt <= now
    ensures Counted(World(now, Expiring(h, n), INITIAL_EDGE), c, q)
  {
    Looked(now, h, input, status, n, n, c, q);
    var h2 := Put(h, n + 1, Process(JobRun(0, 1), Deciding(NewRow(input).(status := status))));
    PutPut(h, n + 1, h2.procs[n + 1], Process(JobRun(0, 1), Setting(ExpiredWrite(0), Finish)));
    PlainStep(now, h2, Decide(n + 1, true), Expiring(h, n), c, q);
  }

  lemma Expires(now: int, h: Hub, input: CreateInput, status: CommandStatus, n: nat, c: nat, q: nat) returns (w: World)
    requires Counted(World(now, h, INITIAL_EDGE), c, q) && Crew(h, input, status, n, n)
    requires status in {Created, Delivering} && input.expiresAt <= now
    ensures Counted(w, c + 1, q)
  {
    ExpiryDecided(now, h, input, status, n, c, q);
    CountedWrite(now, Expiring(h, n), n + 1, JobRun(0, 1), ExpiredWrite(0), Finish, c, q);
    var h' := Put(Expiring(h, n), n + 1, Process(JobRun(0, 1), Continue(0, Finish)))
      .(rows := h.rows[0 := Written(h.rows[0], ExpiredWrite(0), now)]);
    w := World(now, h', INITIAL_EDGE);
  }

  /** For every request and every number of queued calls the bound of `BoundedChurn` is reached. */
  lemma ChurnBoundIsReached(now: int, input: CreateInput, collation: Collation, calls: nat) returns (w: World)
    requires Usable(input, now, collation)
    ensures Counted(w, 2 * calls + 1, calls)
  {
    var h := CrewGathers(now, input, collation, calls);
    h := AllGo(now, h, input, 0, calls);
    CountExtends(World(now, h, INITIAL_EDGE), Tick(input.expiresAt), 2 * calls, calls);
    assert Counted(World(input.expiresAt, h, INITIAL_EDGE), 2 * calls, calls);
    w := Expires(input.expiresAt, h, input, if calls == 0 then Created else Delivering, calls, 2 * calls, calls);
  }
}
