/**
 One run of the system from its start to an execution: a session opens a turn, a request is queued,
 approved for its command alone, and runs.  It shows that the theorems about runs speak of something.
 */
module ExampleRun {
  import opened Wrappers
  import opened Approval
  import P = Provider
  import opened BrokerTables
  import opened Machine

  /** The steps lead from one state to another. */
  ghost predicate Leads(w: World, steps: seq<Step>, v: World)
    decreases |steps|
  {
    if steps == [] then v == w else Enabled(w, steps[0]) && Leads(Apply(w, steps[0]), steps[1..], v)
  }

  lemma First(w: World, s: Step, rest: seq<Step>, v: World)
    requires Enabled(w, s) && Leads(Apply(w, s), rest, v)
    ensures Leads(w, [s] + rest, v)
  {
    assert ([s] + rest)[1..] == rest;
  }

  lemma {:induction false} Both(w: World, steps: seq<Step>, v: World, more: seq<Step>, u: World)
    requires Leads(w, steps, v) && Leads(v, more, u)
    ensures Leads(w, steps + more, u)
    decreases |steps|
  {
    hide Apply, Enabled;
    if steps == [] {
      assert [] + more == more;
    } else {
      Both(Apply(w, steps[0]), steps[1..], v, more, u);
      assert (steps + more)[1..] == steps[1..] + more;
    }
  }

  lemma {:induction false} LeadsIsRun(w: World, steps: seq<Step>, v: World) returns (run: seq<World>)
    requires Leads(w, steps, v)
    ensures |run| == |steps| + 1 && run[0] == w && run[|steps|] == v
    ensures forall i | 0 <= i < |steps| :: Enabled(run[i], steps[i]) && run[i + 1] == Apply(run[i], steps[i])
    decreases |steps|
  {
    hide Apply, Enabled;
    if steps == [] {
      run := [w];
    } else {
      var rest := LeadsIsRun(Apply(w, steps[0]), steps[1..], v);
      run := [w] + rest;
      forall i | 0 <= i < |steps| ensures Enabled(run[i], steps[i]) && run[i + 1] == Apply(run[i], steps[i]) {
        if i > 0 {
          assert run[i] == rest[i - 1] && steps[i] == steps[1..][i - 1] && run[i + 1] == rest[i];
        }
      }
    }
  }

  /** Sweeping changes nothing while nobody is dead, no request is late and there is no lease. */
  lemma SweepIdle(t: Tables, at: Time)
    requires t.leases == map[] && forall id | id in t.inflight :: t.inflight[id].expiresAt > at
    ensures Sweep(t, at, {}) == t
  {
    assert Doomed(t, at, {}) == {};
  }

  /** With nobody dead and nothing late, only the history sees a sweep. */
  lemma SweptIdle(w: World)
    requires w.dead == {} && w.tables.leases == map[] && forall id | id in w.tables.inflight :: w.tables.inflight[id].expiresAt > w.clock
    ensures SweepAt(w, w.clock) == Log(w, [Swept(w.clock, {})])
  {
    SweepIdle(w.tables, w.clock);
  }

  lemma OpenFirst(t: Tables, key: SessionKey, at: Time)
    requires t.leases == map[] && t.inflight == map[] && t.ended == map[]
    requires t.sessions == map[key := Session(key.process, key.sessionId, 0, false, at)]
    ensures OpenTurn(t, key, at) == t.(sessions := map[key := Session(key.process, key.sessionId, 1, true, at)])
  {
    hide Sweep;
    assert CancelPending(t, key).ended.Keys == {};
    assert CancelPending(t, key) == t;
  }

  const START: LifecycleEvent := LifecycleEvent(SessionStarted, "s")
  const TURN: LifecycleEvent := LifecycleEvent(TurnStarted, "s")

  /** A session whose first turn is open. */
  lemma OpenSession(w: World, process: Identity) returns (v: World)
    requires Initial(w) && w.dead == {}
    ensures Leads(w, [HandleLifecycle(w.clock, process, START), HandleLifecycle(w.clock, process, TURN)], v)
    ensures var key := SessionKey(process, "s");
            v == w.(tables := w.tables.(sessions := map[key := Session(process, "s", 1, true, w.clock)]), history := v.history)
  {
    var key := SessionKey(process, "s");
    SweptIdle(w);
    var w1 := Apply(w, HandleLifecycle(w.clock, process, START));
    assert w1.tables == w.tables.(sessions := map[key := Session(process, "s", 0, false, w.clock)]);
    SweptIdle(w1);
    v := Apply(w1, HandleLifecycle(w.clock, process, TURN));
    OpenFirst(w1.tables, key, w.clock);
    hide Apply;
    First(w1, HandleLifecycle(w.clock, process, TURN), [], v);
    First(w, HandleLifecycle(w.clock, process, START), [HandleLifecycle(w.clock, process, TURN)], v);
  }

  lemma OneActive(t: Tables, key: SessionKey)
    requires t.sessions.Keys == {key} && t.sessions[key].process == key.process && t.sessions[key].active
    ensures ActiveSession(t, key.process) == Some(key)
  {
    assert OnlyActive(t, key.process, key);
  }

  /** A request of that session in flight. */
  lemma SubmitRequest(w: World, process: Identity, command: Command, id: Id) returns (v: World, r: Request)
    requires w.cfg.Valid() && w.dead == {} && w.lock.Free? && id !in w.issued && w.requests == map[]
    requires w.threads == map[0 := Thread(process, 0, command, false, Called)]
    requires w.tables == Tables(map[SessionKey(process, "s") := Session(process, "s", 1, true, w.clock)], map[], map[], map[])
    ensures Enabled(w, BeginRequest(0, w.clock, None, Some(id))) && v == Apply(w, BeginRequest(0, w.clock, None, Some(id)))
    ensures r == Request(id, process, "s", 1, 0, command, w.clock, w.clock + w.cfg.requestTTL)
    ensures v == w.(issued := w.issued + {id}, requests := map[id := Origin(r, 0)],
                    threads := map[0 := Thread(process, 0, command, false, Submitting(r))],
                    tables := w.tables.(inflight := map[id := Inflight(process, "s", r.expiresAt)]), history := v.history)
  {
    r := Request(id, process, "s", 1, 0, command, w.clock, w.clock + w.cfg.requestTTL);
    SweptIdle(w);
    OneActive(w.tables, SessionKey(process, "s"));
    hide SweepAt, Sweep;
    var swept := SweepAt(w, w.clock);
    assert BeginAllowed(swept, 0, w.clock, None, Some(id));
    v := Apply(w, BeginRequest(0, w.clock, None, Some(id)));
    assert v == Submit(swept, 0, r);
    hide Apply, BeginAllowed, Begin;
  }

  lemma QueueIt(w: World, r: Request, process: Identity, command: Command) returns (v: World)
    requires w.threads == map[0 := Thread(process, 0, command, false, Submitting(r))] && w.pending == map[]
    ensures Enabled(w, Register(0)) && v == Apply(w, Register(0))
    ensures v == w.(pending := map[r.id := P.Item(r, UNSET, false)], threads := map[0 := Thread(process, 0, command, false, Waiting(r))])
  {
    v := Apply(w, Register(0));
  }

  lemma CallIt(w: World, process: Identity, command: Command) returns (v: World)
    requires w.threads == map[]
    ensures Enabled(w, Call(0, process, 0, command)) && v == Apply(w, Call(0, process, 0, command))
    ensures v == w.(threads := map[0 := Thread(process, 0, command, false, Called)])
  {
    v := Apply(w, Call(0, process, 0, command));
  }

  /** A request of that session, queued at the provider. */
  lemma QueueRequest(w: World, process: Identity, command: Command, id: Id) returns (v: World, r: Request)
    requires w.cfg.Valid() && w.dead == {} && w.lock.Free? && w.threads == map[] && w.pending == map[] && w.requests == map[] && id !in w.issued
    requires w.tables == Tables(map[SessionKey(process, "s") := Session(process, "s", 1, true, w.clock)], map[], map[], map[])
    ensures Leads(w, [Call(0, process, 0, command), BeginRequest(0, w.clock, None, Some(id)), Register(0)], v)
    ensures r == Request(id, process, "s", 1, 0, command, w.clock, w.clock + w.cfg.requestTTL)
    ensures v == w.(issued := w.issued + {id}, requests := map[id := Origin(r, 0)], pending := map[id := P.Item(r, UNSET, false)],
                    threads := map[0 := Thread(process, 0, command, false, Waiting(r))],
                    tables := w.tables.(inflight := map[id := Inflight(process, "s", r.expiresAt)]), history := v.history)
  {
    hide Apply, Enabled;
    var w1 := CallIt(w, process, command);
    var w2, r2 := SubmitRequest(w1, process, command, id);
    r := r2;
    v := QueueIt(w2, r, process, command);
    First(w2, Register(0), [], v);
    First(w1, BeginRequest(0, w.clock, None, Some(id)), [Register(0)], v);
    First(w, Call(0, process, 0, command), [BeginRequest(0, w.clock, None, Some(id)), Register(0)], v);
  }

  /** Its approval, for the command alone. */
  lemma ApproveIt(w: World, r: Request, uid: nat) returns (v: World)
    requires w.dead == {} && w.lock.Free? && w.tables.leases == map[] && w.tables.ended == map[]
    requires w.pending == map[r.id := P.Item(r, UNSET, false)]
    requires forall id | id in w.tables.inflight :: w.tables.inflight[id].expiresAt > w.clock
    ensures Leads(w, [OpenDecide(w.clock, r.id, Approved, CommandScope, uid), CloseDecide(None)], v)
    ensures v == w.(pending := map[r.id := P.Item(r, P.ManualDecision(Approved, CommandScope, uid), true)], history := v.history)
  {
    SweptIdle(w);
    var open := OpenDecide(w.clock, r.id, Approved, CommandScope, uid);
    var w1 := Apply(w, open);
    v := Apply(w1, CloseDecide(None));
    AnswerIt(r, uid);
    hide Apply;
    First(w1, CloseDecide(None), [], v);
    First(w, open, [CloseDecide(None)], v);
  }

  lemma AnswerIt(r: Request, uid: nat)
    ensures P.Review(map[r.id := P.Item(r, UNSET, false)], map[], r.id, Approved, CommandScope, uid)
         == (map[r.id := P.Item(r, P.ManualDecision(Approved, CommandScope, uid), true)],
             Success(P.Reviewed(r, P.ManualDecision(Approved, CommandScope, uid))))
  {
    var pending := map[r.id := P.Item(r, UNSET, false)];
    var decision := P.ManualDecision(Approved, CommandScope, uid);
    assert P.Prune(pending, map[]) == pending;
    assert P.Answer(pending, r, decision) == map[r.id := P.Item(r, decision, true)];
  }

  lemma WakeIt(w: World, r: Request, command: Command, item: P.Item) returns (v: World)
    requires w.pending == map[r.id := item] && item.done
    requires w.threads == map[0 := Thread(r.process, 0, command, false, Waiting(r))]
    ensures Enabled(w, WakeDecided(0)) && v == Apply(w, WakeDecided(0))
    ensures v == w.(threads := map[0 := Thread(r.process, 0, command, false, Awake(r))])
  {
    v := Apply(w, WakeDecided(0));
  }

  lemma TakeIt(w: World, r: Request, command: Command, item: P.Item) returns (v: World)
    requires w.pending == map[r.id := item]
    requires w.threads == map[0 := Thread(r.process, 0, command, false, Awake(r))]
    ensures Enabled(w, Collect(0)) && v == Apply(w, Collect(0))
    ensures v == w.(pending := map[], threads := map[0 := Thread(r.process, 0, command, false, Returned(r, item.decision))])
  {
    v := Apply(w, Collect(0));
    assert w.pending - {r.id} == map[];
  }

  lemma ReleaseIt(w: World, r: Request, command: Command, decision: Decision) returns (v: World)
    requires w.threads == map[0 := Thread(r.process, 0, command, false, Returned(r, decision))]
    ensures Enabled(w, ReleaseContext(0)) && v == Apply(w, ReleaseContext(0))
    ensures v == w.(threads := map[0 := Thread(r.process, 0, command, false, Resuming(r, decision))], tables := v.tables)
    ensures v.tables.sessions == w.tables.sessions
  {
    v := Apply(w, ReleaseContext(0));
  }

  /** The waiter collects its decision. */
  lemma CollectIt(w: World, r: Request, command: Command, decision: Decision) returns (v: World)
    requires w.pending == map[r.id := P.Item(r, decision, true)]
    requires w.threads == map[0 := Thread(r.process, 0, command, false, Waiting(r))]
    ensures Leads(w, [WakeDecided(0), Collect(0), ReleaseContext(0)], v)
    ensures v == w.(pending := map[], threads := map[0 := Thread(r.process, 0, command, false, Resuming(r, decision))], tables := v.tables)
    ensures v.tables.sessions == w.tables.sessions
  {
    hide Apply, Enabled;
    var w1 := WakeIt(w, r, command, P.Item(r, decision, true));
    var w2 := TakeIt(w1, r, command, P.Item(r, decision, true));
    v := ReleaseIt(w2, r, command, decision);
    First(w2, ReleaseContext(0), [], v);
    First(w1, Collect(0), [ReleaseContext(0)], v);
    First(w, WakeDecided(0), [Collect(0), ReleaseContext(0)], v);
  }

  /** It passes its last critical section and runs its command. */
  lemma FinishIt(w: World, r: Request, command: Command, decision: Decision) returns (v: World)
    requires w.dead == {} && w.lock.Free? && ContextActive(w.tables.sessions, r)
    requires decision.Valid() && decision.outcome == Approved && decision.scope == CommandScope
    requires w.threads == map[0 := Thread(r.process, 0, command, false, Resuming(r, decision))]
    ensures Leads(w, [FinishRequest(0, None), Launch(0)], v)
    ensures |v.history| > 0 && v.history[|v.history| - 1] == Execution(0, command)
  {
    var w4 := Apply(w, FinishRequest(0, None));
    assert w4.threads[0].pc == Admitted && !w4.threads[0].disconnected && w4.dead == {};
    v := Apply(w4, Launch(0));
    hide Apply;
    First(w4, Launch(0), [], v);
    First(w, FinishRequest(0, None), [Launch(0)], v);
  }

  lemma RunIt(w: World, r: Request, command: Command, uid: nat) returns (v: World)
    requires w.dead == {} && w.lock.Free? && ContextActive(w.tables.sessions, r)
    requires w.pending == map[r.id := P.Item(r, P.ManualDecision(Approved, CommandScope, uid), true)]
    requires w.threads == map[0 := Thread(r.process, 0, command, false, Waiting(r))]
    ensures Leads(w, [WakeDecided(0), Collect(0), ReleaseContext(0), FinishRequest(0, None), Launch(0)], v)
    ensures |v.history| > 0 && v.history[|v.history| - 1] == Execution(0, command)
  {
    var decision := P.ManualDecision(Approved, CommandScope, uid);
    assert decision.Valid();
    hide Leads, ContextActive;
    var u := CollectIt(w, r, command, decision);
    v := FinishIt(u, r, command, decision);
    Both(w, [WakeDecided(0), Collect(0), ReleaseContext(0)], u, [FinishRequest(0, None), Launch(0)], v);
    assert [WakeDecided(0), Collect(0), ReleaseContext(0)] + [FinishRequest(0, None), Launch(0)]
        == [WakeDecided(0), Collect(0), ReleaseContext(0), FinishRequest(0, None), Launch(0)];
  }

  /** From every initial state in which nobody is dead, for every process, command and approver, there
      is a run of twelve steps that ends with the execution of the command. */
  lemma CommandsCanRun(w: World, process: Identity, command: Command, id: Id, uid: nat) returns (run: seq<World>, steps: seq<Step>)
    requires Initial(w) && w.dead == {}
    ensures IsRun(run, steps) && run[0] == w && |steps| == 12
    ensures var last := run[|steps|]; |last.history| > 0 && last.history[|last.history| - 1] == Execution(0, command)
  {
    var v1 := OpenSession(w, process);
    var v2, r := QueueRequest(v1, process, command, id);
    var v3 := ApproveIt(v2, r, uid);
    var v4 := RunIt(v3, r, command, uid);
    var s1 := [HandleLifecycle(w.clock, process, START), HandleLifecycle(w.clock, process, TURN)];
    var s2 := [Call(0, process, 0, command), BeginRequest(0, v1.clock, None, Some(id)), Register(0)];
    var s3 := [OpenDecide(v2.clock, r.id, Approved, CommandScope, uid), CloseDecide(None)];
    var s4 := [WakeDecided(0), Collect(0), ReleaseContext(0), FinishRequest(0, None), Launch(0)];
    hide Leads, Apply, Enabled;
    Both(w, s1, v1, s2, v2);
    Both(w, s1 + s2, v2, s3, v3);
    Both(w, s1 + s2 + s3, v3, s4, v4);
    steps := s1 + s2 + s3 + s4;
    run := LeadsIsRun(w, steps, v4);
  }
}
