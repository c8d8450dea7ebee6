/** Restarting a connector's ECS task against a backend that stops tasks in its own time: request the stop, poll
    until the old task is STOPPED, then run the same token again. */
module EcsRestart {
  import opened Basics
  import opened Decider

  type Arn = nat

  type Token = nat

  datatype Status = Active | Stopping | Stopped

  /** `wanted` is the desired status RUNNING, by which tasks are listed. `token` is the reusable environment
      of the container override, if the task carries one. */
  datatype Task = Task(id: Id, token: Option<Token>, wanted: bool, status: Status)

  type Tasks = map<Arn, Task>

  // --- what the environment chooses ------------------------------------------------

  /** Tasks that reach STOPPED, and stopped tasks that the backend forgets. */
  datatype Drift = Drift(stopped: set<Arn>, gone: set<Arn>)

  /** A call is answered, refused, or carried out with its answer lost; a run may also start nothing. */
  datatype Answer = Answered | Refused | Lost | NothingStarted

  /** The backend's behaviour during one restart: how it drifts before each call, and how it answers. */
  datatype Weather = Weather(
    drift: nat -> Drift,
    describeFails: bool,
    stop: Answer,
    pollFails: nat -> bool,
    run: Answer)

  // --- the backend -------------------------------------------------------------------

  /** A stopped task is never listed again, and only a stopped task is forgotten. */
  function Drifted(ts: Tasks, d: Drift): Tasks {
    map a | a in ts && !(a in d.gone && (a in d.stopped || ts[a].status == Stopped)) ::
      if a in d.stopped then ts[a].(status := Stopped, wanted := false) else ts[a]
  }

  /** Stopping only begins: a live task is on its way to STOPPED, and is listed no more. */
  function StopBegun(ts: Tasks, arn: Arn): Tasks {
    if arn !in ts then ts
    else ts[arn := ts[arn].(wanted := false, status := if ts[arn].status == Active then Stopping else ts[arn].status)]
  }

  function Launched(ts: Tasks, arn: Arn, id: Id, token: Option<Token>): Tasks {
    ts[arn := Task(id, token, true, Active)]
  }

  /** The listed tasks: those whose desired status is RUNNING. */
  function Listed(ts: Tasks): set<Arn> { set a | a in ts && ts[a].wanted }

  ghost predicate Live(ts: Tasks, a: Arn) { a in ts && ts[a].status != Stopped }

  /** No token is carried by two tasks that have not reached STOPPED. */
  ghost predicate Exclusive(ts: Tasks) {
    forall a, b :: Live(ts, a) && Live(ts, b) && a != b && ts[a].token.Some? ==> ts[a].token != ts[b].token
  }

  /** No other live task carries the token of `arn`. */
  ghost predicate Sole(ts: Tasks, arn: Arn) {
    arn in ts && ts[arn].token.Some? ==> forall b :: Live(ts, b) && b != arn ==> ts[b].token != ts[arn].token
  }

  ghost predicate WellFormed(ts: Tasks, nextArn: Arn) {
    && (forall a :: a in ts ==> a < nextArn)
    && (forall a :: a in ts && ts[a].wanted ==> ts[a].status == Active)
  }

  // --- the calls, as the states they pass through -----------------------------------------

  /** The states a call passed through, the last being the current one, and whether it reported success. */
  datatype Passage = Passage(states: seq<Tasks>, nextArn: Arn, ok: bool)
  {
    ghost predicate Valid() { states != [] && WellFormed(states[|states| - 1], nextArn) }

    function Now(): Tasks
      requires states != []
    {
      states[|states| - 1]
    }

    function To(ts: Tasks): Passage { this.(states := states + [ts]) }

    function Failed(): Passage { this.(ok := false) }
  }

  /** Polls until the task is STOPPED or gone; false when a poll fails or the attempts run out. */
  function Waited(p: Passage, arn: Arn, w: Weather, k: nat, attempts: nat): (r: Passage)
    requires p.states != []
    ensures r.states != []
    decreases attempts - k
  {
    if k >= attempts then p.Failed()
    else
      var q := p.To(Drifted(p.Now(), w.drift(k + 2)));
      if w.pollFails(k) then q.Failed()
      else if arn !in q.Now() || q.Now()[arn].status == Stopped then q
      else Waited(q, arn, w, k + 1, attempts)
  }

  function Run(p: Passage, id: Id, token: Option<Token>, answer: Answer): (r: Passage)
    requires p.states != []
    ensures r.states != []
  {
    if answer == Answered || answer == Lost then
      p.To(Launched(p.Now(), p.nextArn, id, token)).(nextArn := p.nextArn + 1, ok := answer == Answered)
    else p.(ok := answer == NothingStarted)
  }

  /** Look the task up, and ask for it to stop; an error unless it has a token to reuse and the stop is answered. */
  function StopFirst(ts: Tasks, nextArn: Arn, arn: Arn, w: Weather): (r: Passage)
    ensures r.states != []
    ensures r.ok ==> arn in r.states[0] && r.states[0][arn].token.Some?
  {
    var p := Passage([Drifted(ts, w.drift(0))], nextArn, true);
    if w.describeFails || arn !in p.Now() || p.Now()[arn].token.None? then p.Failed()
    else
      var before := p.To(Drifted(p.Now(), w.drift(1)));
      if w.stop == Refused then before.Failed()
      else before.To(StopBegun(before.Now(), arn)).(ok := w.stop != Lost)
  }

  /** Whatever a run starts, its answer is not looked at: only a refusal or a lost answer is an error. */
  function Restarted(ts: Tasks, nextArn: Arn, arn: Arn, w: Weather, attempts: nat): (r: Passage)
    ensures r.states != []
  {
    var q := StopFirst(ts, nextArn, arn, w);
    if !q.ok then q
    else
      var task := q.states[0][arn];
      var stopped := Waited(q, arn, w, 0, attempts);
      if !stopped.ok then stopped else Run(stopped, task.id, task.token, w.run)
  }

  /** A new connector's task, with a token just minted. Starting nothing is an error here. */
  function Provisioned(ts: Tasks, nextArn: Arn, id: Id, token: Token, w: Weather): (r: Passage)
    ensures r.states != []
  {
    var r := Run(Passage([Drifted(ts, w.drift(0))], nextArn, true), id, Some(token), w.run);
    if w.run == NothingStarted then r.Failed() else r
  }

  function Deprovisioned(ts: Tasks, nextArn: Arn, arn: Arn, w: Weather): (r: Passage)
    ensures r.states != []
  {
    var p := Passage([Drifted(ts, w.drift(0))], nextArn, w.stop != Refused && w.stop != Lost);
    if w.stop == Refused then p else p.To(StopBegun(p.Now(), arn))
  }

  // --- what each state keeps ------------------------------------------------------------------

  ghost predicate AllExclusive(p: Passage) { forall i :: 0 <= i < |p.states| ==> Exclusive(p.states[i]) }

  lemma DriftKeeps(ts: Tasks, d: Drift, nextArn: Arn)
    requires WellFormed(ts, nextArn)
    ensures WellFormed(Drifted(ts, d), nextArn)
    ensures Exclusive(ts) ==> Exclusive(Drifted(ts, d))
    ensures OnlyFades(ts, Drifted(ts, d))
  {
  }

  lemma StopKeeps(ts: Tasks, arn: Arn, nextArn: Arn)
    requires WellFormed(ts, nextArn)
    ensures WellFormed(StopBegun(ts, arn), nextArn)
    ensures Exclusive(ts) ==> Exclusive(StopBegun(ts, arn))
    ensures OnlyFades(ts, StopBegun(ts, arn))
    ensures arn !in Listed(StopBegun(ts, arn))
  {
  }

  /** No live task carries the token. */
  ghost predicate Unused(ts: Tasks, token: Token) { forall a :: Live(ts, a) ==> ts[a].token != Some(token) }

  /** Running a token keeps exclusivity exactly when no live task carries it. */
  lemma LaunchExact(ts: Tasks, nextArn: Arn, id: Id, token: Token)
    requires WellFormed(ts, nextArn) && Exclusive(ts)
    ensures WellFormed(Launched(ts, nextArn, id, Some(token)), nextArn + 1)
    ensures Exclusive(Launched(ts, nextArn, id, Some(token))) <==> Unused(ts, token)
  {
    var v := Launched(ts, nextArn, id, Some(token));
    if Unused(ts, token) {
      forall a, b | Live(v, a) && Live(v, b) && a != b && v[a].token.Some?
        ensures v[a].token != v[b].token
      {
        assert a != nextArn ==> Live(ts, a);
        assert b != nextArn ==> Live(ts, b);
      }
    } else {
      var a :| Live(ts, a) && ts[a].token == Some(token);
      assert Live(v, a) && Live(v, nextArn);
    }
  }

  /** What the states of a call keep while it only drifts and stops: every task was there before, with the
      token it has, and live if it still is. */
  ghost predicate OnlyFades(ts: Tasks, v: Tasks) {
    forall a :: a in v ==> a in ts && v[a].token == ts[a].token && (Live(v, a) ==> Live(ts, a))
  }

  ghost predicate Fading(ts: Tasks, p: Passage) { p.Valid() && AllExclusive(p) && OnlyFades(ts, p.Now()) }

  lemma FadeDrift(ts: Tasks, p: Passage, d: Drift)
    requires Fading(ts, p)
    ensures Fading(ts, p.To(Drifted(p.Now(), d)))
    ensures Listed(Drifted(p.Now(), d)) <= Listed(p.Now())
  {
    DriftKeeps(p.Now(), d, p.nextArn);
  }

  lemma FadeStop(ts: Tasks, p: Passage, arn: Arn)
    requires Fading(ts, p)
    ensures Fading(ts, p.To(StopBegun(p.Now(), arn)))
    ensures Listed(StopBegun(p.Now(), arn)) == Listed(p.Now()) - {arn}
  {
    StopKeeps(p.Now(), arn, p.nextArn);
  }

  /** A wait that succeeds leaves the task STOPPED or gone. */
  lemma {:induction false} WaitedKeeps(ts: Tasks, p: Passage, arn: Arn, w: Weather, k: nat, attempts: nat)
    requires Fading(ts, p)
    ensures var r := Waited(p, arn, w, k, attempts);
            && Fading(ts, r) && r.nextArn == p.nextArn && (r.ok ==> p.ok && !Live(r.Now(), arn))
            && Listed(r.Now()) <= Listed(p.Now())
    decreases attempts - k
  {
    if k < attempts {
      var q := p.To(Drifted(p.Now(), w.drift(k + 2)));
      FadeDrift(ts, p, w.drift(k + 2));
      WaitedKeeps(ts, q, arn, w, k + 1, attempts);
    }
  }

  /** No other live task carries the token of `arn`, so once `arn` is not live none does. */
  lemma SoleThenUnused(ts: Tasks, v: Tasks, arn: Arn, token: Token)
    requires arn in ts && ts[arn].token == Some(token) && Sole(ts, arn)
    requires OnlyFades(ts, v) && !Live(v, arn)
    ensures Unused(v, token)
  {
  }

  lemma RunKeeps(ts: Tasks, p: Passage, id: Id, token: Token, answer: Answer)
    requires Fading(ts, p) && Unused(p.Now(), token)
    ensures var r := Run(p, id, Some(token), answer); r.Valid() && AllExclusive(r)
  {
    LaunchExact(p.Now(), p.nextArn, id, token);
  }

  /** Whether a restart got as far as a stop request that took effect. */
  predicate StopTaken(ts: Tasks, arn: Arn, w: Weather) {
    var seen := Drifted(ts, w.drift(0));
    !w.describeFails && arn in seen && seen[arn].token.Some? && w.stop != Refused
  }

  lemma StopFirstKeeps(ts: Tasks, nextArn: Arn, arn: Arn, w: Weather)
    requires WellFormed(ts, nextArn) && Exclusive(ts)
    ensures var q := StopFirst(ts, nextArn, arn, w);
            && Fading(ts, q) && q.nextArn == nextArn && Listed(q.Now()) <= Listed(ts)
            && (q.ok ==>
                  && StopTaken(ts, arn, w) && arn in ts
                  && q.states[0][arn].id == ts[arn].id && q.states[0][arn].token == ts[arn].token)
            && (StopTaken(ts, arn, w) ==> arn !in Listed(q.Now()))
  {
    DriftKeeps(ts, w.drift(0), nextArn);
    var p := Passage([Drifted(ts, w.drift(0))], nextArn, true);
    assert Fading(ts, p) && Listed(p.Now()) <= Listed(ts);
    FadeDrift(ts, p, w.drift(1));
    FadeStop(ts, p.To(Drifted(p.Now(), w.drift(1))), arn);
  }

  lemma RestartKeeps(ts: Tasks, nextArn: Arn, arn: Arn, w: Weather, attempts: nat)
    requires WellFormed(ts, nextArn) && Exclusive(ts) && Sole(ts, arn)
    ensures var r := Restarted(ts, nextArn, arn, w, attempts); r.Valid() && AllExclusive(r)
  {
    StopFirstKeeps(ts, nextArn, arn, w);
    var q := StopFirst(ts, nextArn, arn, w);
    if q.ok {
      WaitedKeeps(ts, q, arn, w, 0, attempts);
      var stopped := Waited(q, arn, w, 0, attempts);
      if stopped.ok {
        SoleThenUnused(ts, stopped.Now(), arn, ts[arn].token.value);
        RunKeeps(ts, stopped, ts[arn].id, ts[arn].token.value, w.run);
      }
    }
  }

  /** The backend that stops `arn` at the first poll, answers everything and touches nothing else. */
  function Prompt(arn: Arn): Weather {
    Weather(k => Drift(if k == 2 then {arn} else {}, {}), false, Answered, k => false, Answered)
  }

  lemma NoDrift(ts: Tasks)
    ensures Drifted(ts, Drift({}, {})) == ts
  {
  }

  /** Such a backend lets the restart get as far as the run. */
  lemma PromptStops(ts: Tasks, nextArn: Arn, arn: Arn, run: Answer, attempts: nat)
    requires arn in ts && ts[arn].token.Some? && attempts > 0
    ensures var w := Prompt(arn).(run := run);
            var r, ended := Restarted(ts, nextArn, arn, w, attempts), Drifted(StopBegun(ts, arn), Drift({arn}, {}));
            && StopTaken(ts, arn, w) && r.ok == (run == Answered || run == NothingStarted)
            && r.Now() == if run == Answered || run == Lost
                          then Launched(ended, nextArn, ts[arn].id, ts[arn].token) else ended
  {
    NoDrift(ts);
    var w := Prompt(arn);
    assert w.drift(0) == Drift({}, {}) && w.drift(1) == Drift({}, {}) && w.drift(2) == Drift({arn}, {});
  }

  /** A restart keeps its token in one live task, at every moment and whatever the backend does, if and only
      if no other live task carries that token when the restart is asked for. */
  lemma RestartExact(ts: Tasks, nextArn: Arn, arn: Arn, attempts: nat)
    requires WellFormed(ts, nextArn) && Exclusive(ts) && attempts > 0
    ensures (forall w :: AllExclusive(Restarted(ts, nextArn, arn, w, attempts))) <==> Sole(ts, arn)
  {
    if Sole(ts, arn) {
      forall w
        ensures AllExclusive(Restarted(ts, nextArn, arn, w, attempts))
      {
        RestartKeeps(ts, nextArn, arn, w, attempts);
      }
    } else {
      var b :| Live(ts, b) && b != arn && ts[b].token == ts[arn].token;
      TokenDoubled(ts, nextArn, arn, b, attempts);
    }
  }

  lemma TokenDoubled(ts: Tasks, nextArn: Arn, arn: Arn, b: Arn, attempts: nat)
    requires WellFormed(ts, nextArn) && attempts > 0 && arn in ts && ts[arn].token.Some?
    requires Live(ts, b) && b != arn && ts[b].token == ts[arn].token
    ensures !AllExclusive(Restarted(ts, nextArn, arn, Prompt(arn), attempts))
  {
    PromptStops(ts, nextArn, arn, Answered, attempts);
    assert Prompt(arn).(run := Answered) == Prompt(arn);
    var r := Restarted(ts, nextArn, arn, Prompt(arn), attempts);
    assert Live(r.Now(), b) && Live(r.Now(), nextArn) && r.Now()[b].token == r.Now()[nextArn].token;
    assert !Exclusive(r.states[|r.states| - 1]);
  }

  /** A task that is listed now is the only live holder of its token. */
  lemma ListedIsSole(ts: Tasks, nextArn: Arn, arn: Arn)
    requires WellFormed(ts, nextArn) && Exclusive(ts) && arn in Listed(ts)
    ensures Sole(ts, arn)
  {
    assert Live(ts, arn);
  }

  /** What a restart leaves listed. Once the stop took effect the old task is listed no more, so a stop that
      times out or a rerun that is refused leaves the connector without a listed task; so does a rerun that
      starts nothing, which the restart reports as a success. */
  lemma RestartOutcome(ts: Tasks, nextArn: Arn, arn: Arn, w: Weather, attempts: nat)
    requires WellFormed(ts, nextArn) && Exclusive(ts) && arn in Listed(ts)
    ensures var r := Restarted(ts, nextArn, arn, w, attempts);
            && (r.ok ==>
                  && StopTaken(ts, arn, w) && !Live(r.Now(), arn)
                  && (nextArn in Listed(r.Now()) <==> w.run == Answered))
            && (StopTaken(ts, arn, w) ==> arn !in Listed(r.Now()))
            && Listed(r.Now()) <= Listed(ts) + {nextArn}
            && (nextArn in Listed(r.Now()) ==> StopTaken(ts, arn, w)
                                               && r.Now()[nextArn].id == ts[arn].id
                                               && r.Now()[nextArn].token == ts[arn].token)
  {
    StopFirstKeeps(ts, nextArn, arn, w);
    var q := StopFirst(ts, nextArn, arn, w);
    if q.ok {
      WaitedKeeps(ts, q, arn, w, 0, attempts);
      RunOutcome(Waited(q, arn, w, 0, attempts), ts[arn].id, ts[arn].token, w.run);
    }
  }

  lemma RunOutcome(p: Passage, id: Id, token: Option<Token>, answer: Answer)
    requires p.Valid()
    ensures var r := Run(p, id, token, answer);
            && (answer == Answered || answer == Lost ==>
                  Listed(r.Now()) == Listed(p.Now()) + {p.nextArn}
                  && r.Now()[p.nextArn] == Task(id, token, true, Active))
            && (answer == Refused || answer == NothingStarted ==> r.Now() == p.Now())
            && (r.ok <==> answer == Answered || answer == NothingStarted)
            && forall a :: a != p.nextArn ==> (Live(r.Now(), a) <==> Live(p.Now(), a))
  {
  }

  /** A restart may report success with nothing started: the backend stops the task at the first poll, answers
      the run and starts nothing. The connector then has no listed task. */
  lemma RestartedToNothing(id: Id, token: Token, attempts: nat)
    requires attempts > 0
    ensures var ts := map[0 := Task(id, Some(token), true, Active)];
            var r := Restarted(ts, 1, 0, Prompt(0).(run := NothingStarted), attempts);
            WellFormed(ts, 1) && Exclusive(ts) && Listed(ts) == {0} && r.ok && Listed(r.Now()) == {}
  {
    var ts := map[0 := Task(id, Some(token), true, Active)];
    RestartOutcome(ts, 1, 0, Prompt(0).(run := NothingStarted), attempts);
    PromptStops(ts, 1, 0, NothingStarted, attempts);
    assert Listed(ts) == {0};
  }

  // --- any sequence of calls -------------------------------------------------------------------

  /** What the caller goes by: the tasks its last listing showed and it has not restarted since, and the tokens
      minted so far. */
  datatype Book = Book(todo: set<Arn>, minted: set<Token>)

  datatype Call =
    | List(d: Drift)
    | Provision(id: Id, token: Token, w: Weather)
    | Restart(arn: Arn, w: Weather)
    | Deprovision(arn: Arn, w: Weather)
    | Wait(d: Drift)

  function Performed(ts: Tasks, nextArn: Arn, c: Call, attempts: nat): (r: Passage)
    ensures r.states != []
  {
    match c
    case List(d) => Passage([Drifted(ts, d)], nextArn, true)
    case Provision(id, token, w) => Provisioned(ts, nextArn, id, token, w)
    case Restart(arn, w) => Restarted(ts, nextArn, arn, w, attempts)
    case Deprovision(arn, w) => Deprovisioned(ts, nextArn, arn, w)
    case Wait(d) => Passage([Drifted(ts, d)], nextArn, true)
  }

  /** The book once the call has left `ts`. */
  function Booked(b: Book, c: Call, ts: Tasks): Book {
    match c
    case List(_) => b.(todo := Listed(ts))
    case Provision(_, token, _) => b.(minted := b.minted + {token})
    case Restart(arn, _) => b.(todo := b.todo - {arn})
    case Deprovision(_, _) => b
    case Wait(_) => b
  }

  /** A token is minted once, and a restart is given a task that the last listing showed, however long ago that
      was, and each such task at most once. */
  ghost predicate Permitted(b: Book, c: Call) {
    match c
    case List(_) => true
    case Provision(_, token, _) => token !in b.minted
    case Restart(arn, _) => arn in b.todo
    case Deprovision(_, _) => true
    case Wait(_) => true
  }

  /** A run of calls: what each passed through, and the book after it. */
  ghost predicate Calls(ps: seq<Passage>, bs: seq<Book>, calls: seq<Call>, attempts: nat) {
    && |ps| == |bs| == |calls| + 1
    && (forall i :: 0 <= i < |ps| ==> ps[i].states != [])
    && forall i {:trigger calls[i]} :: 0 <= i < |calls| ==>
         && Permitted(bs[i], calls[i])
         && ps[i + 1] == Performed(ps[i].Now(), ps[i].nextArn, calls[i], attempts)
         && bs[i + 1] == Booked(bs[i], calls[i], ps[i + 1].Now())
  }

  /** No task still to be restarted shares its token with a live task, or with another one still to be restarted. */
  ghost predicate Apart(ts: Tasks, todo: set<Arn>) {
    forall a, c :: a in todo && a in ts && ts[a].token.Some? && c in ts && c != a && (Live(ts, c) || c in todo) ==>
                     ts[c].token != ts[a].token
  }

  ghost predicate Kept(ts: Tasks, nextArn: Arn, b: Book) {
    && WellFormed(ts, nextArn) && Exclusive(ts) && Apart(ts, b.todo)
    && (forall a :: a in ts && ts[a].token.Some? ==> ts[a].token.value in b.minted)
    && (forall a :: a in b.todo ==> a < nextArn)
  }

  lemma FadeBooked(ts: Tasks, p: Passage, b: Book)
    requires Kept(ts, p.nextArn, b) && Fading(ts, p)
    ensures Kept(p.Now(), p.nextArn, b)
  {
    assert Exclusive(p.states[|p.states| - 1]);
  }

  /** No task still to be restarted carries the token. */
  ghost predicate Unclaimed(ts: Tasks, todo: set<Arn>, token: Token) {
    forall a :: a in todo && a in ts ==> ts[a].token != Some(token)
  }

  lemma RunBooked(p: Passage, id: Id, token: Token, answer: Answer, b: Book)
    requires p.states != [] && Kept(p.Now(), p.nextArn, b) && token in b.minted
    requires Unused(p.Now(), token) && Unclaimed(p.Now(), b.todo, token)
    ensures var r := Run(p, id, Some(token), answer); Kept(r.Now(), r.nextArn, b)
  {
    LaunchExact(p.Now(), p.nextArn, id, token);
  }

  /** A task listed before and not restarted since may have stopped in the meantime. Nobody else has its token. */
  lemma RestartBooked(ts: Tasks, nextArn: Arn, arn: Arn, w: Weather, attempts: nat, b: Book)
    requires Kept(ts, nextArn, b) && arn in b.todo
    ensures var r := Restarted(ts, nextArn, arn, w, attempts);
            Kept(r.Now(), r.nextArn, b.(todo := b.todo - {arn}))
  {
    var rest := b.(todo := b.todo - {arn});
    StopFirstKeeps(ts, nextArn, arn, w);
    var q := StopFirst(ts, nextArn, arn, w);
    FadeBooked(ts, q, rest);
    if q.ok {
      WaitedKeeps(ts, q, arn, w, 0, attempts);
      var stopped := Waited(q, arn, w, 0, attempts);
      FadeBooked(ts, stopped, rest);
      if stopped.ok {
        SoleThenUnused(ts, stopped.Now(), arn, ts[arn].token.value);
        RunBooked(stopped, ts[arn].id, ts[arn].token.value, w.run, rest);
      }
    }
  }

  lemma ProvisionKeeps(ts: Tasks, nextArn: Arn, id: Id, token: Token, w: Weather, b: Book)
    requires Kept(ts, nextArn, b) && token !in b.minted
    ensures var r := Provisioned(ts, nextArn, id, token, w);
            r.Valid() && AllExclusive(r) && Kept(r.Now(), r.nextArn, b.(minted := b.minted + {token}))
  {
    var p := Passage([Drifted(ts, w.drift(0))], nextArn, true);
    DriftKeeps(ts, w.drift(0), nextArn);
    FadeBooked(ts, p, b);
    RunKeeps(ts, p, id, token, w.run);
    RunBooked(p, id, token, w.run, b.(minted := b.minted + {token}));
  }

  lemma ListKeeps(ts: Tasks, nextArn: Arn, d: Drift, b: Book)
    requires Kept(ts, nextArn, b)
    ensures Kept(Drifted(ts, d), nextArn, b) && Kept(Drifted(ts, d), nextArn, b.(todo := Listed(Drifted(ts, d))))
  {
    DriftKeeps(ts, d, nextArn);
    FadeBooked(ts, Passage([Drifted(ts, d)], nextArn, true), b);
  }

  lemma CallKeeps(ts: Tasks, nextArn: Arn, c: Call, attempts: nat, b: Book)
    requires Kept(ts, nextArn, b) && Permitted(b, c)
    ensures var r := Performed(ts, nextArn, c, attempts);
            r.Valid() && AllExclusive(r) && Kept(r.Now(), r.nextArn, Booked(b, c, r.Now()))
  {
    match c
    case List(d) => ListKeeps(ts, nextArn, d, b);
    case Provision(id, token, w) => ProvisionKeeps(ts, nextArn, id, token, w, b);
    case Restart(arn, w) =>
      RestartKeeps(ts, nextArn, arn, w, attempts);
      RestartBooked(ts, nextArn, arn, w, attempts, b);
    case Deprovision(arn, w) =>
      var p := Passage([Drifted(ts, w.drift(0))], nextArn, true);
      DriftKeeps(ts, w.drift(0), nextArn);
      FadeStop(ts, p, arn);
      FadeBooked(ts, p, b);
      FadeBooked(ts, p.To(StopBegun(p.Now(), arn)), b);
    case Wait(d) => ListKeeps(ts, nextArn, d, b);
  }

  /** Over any sequence of listings, provisions, restarts of listed tasks and deprovisions, with the backend
      stopping tasks whenever it likes and failing any call, no state they pass through has a token in two live
      tasks. A section lists once and then restarts one connector after another: a task that stopped while an
      earlier restart was waiting is still restarted from the old listing. */
  lemma {:induction false} OneTokenOneTask(ps: seq<Passage>, bs: seq<Book>, calls: seq<Call>, attempts: nat, i: nat)
    requires Calls(ps, bs, calls, attempts) && i <= |calls|
    requires AllExclusive(ps[0]) && Kept(ps[0].Now(), ps[0].nextArn, bs[0])
    ensures ps[i].Valid() && AllExclusive(ps[i]) && Kept(ps[i].Now(), ps[i].nextArn, bs[i])
  {
    if i > 0 {
      OneTokenOneTask(ps, bs, calls, attempts, i - 1);
      CallKeeps(ps[i - 1].Now(), ps[i - 1].nextArn, calls[i - 1], attempts, bs[i - 1]);
    }
  }

  // --- the objects -----------------------------------------------------------------------------

  /** The backend's task table, and the states it has been in. */
  class Cluster {
    var tasks: Tasks
    var nextArn: Arn
    ghost var states: seq<Tasks>

    ghost predicate Valid()
      reads this
    {
      states != [] && states[|states| - 1] == tasks && WellFormed(tasks, nextArn)
    }

    constructor ()
      ensures Valid() && tasks == map[] && states == [map[]]
    {
      tasks, nextArn, states := map[], 0, [map[]];
    }

    method PassTime(d: Drift)
      requires Valid()
      modifies this
      ensures Valid() && tasks == Drifted(old(tasks), d) && states == old(states) + [tasks] && nextArn == old(nextArn)
    {
      DriftKeeps(tasks, d, nextArn);
      tasks := Drifted(tasks, d);
      states := states + [tasks];
    }

    method StopTask(arn: Arn, answer: Answer) returns (ok: bool)
      requires Valid()
      modifies this
      ensures Valid() && nextArn == old(nextArn) && ok == (answer != Refused && answer != Lost)
      ensures answer == Refused ==> tasks == old(tasks) && states == old(states)
      ensures answer != Refused ==> tasks == StopBegun(old(tasks), arn) && states == old(states) + [tasks]
    {
      ok := answer != Refused && answer != Lost;
      if answer != Refused {
        StopKeeps(tasks, arn, nextArn);
        tasks := StopBegun(tasks, arn);
        states := states + [tasks];
      }
    }

    method RunTask(id: Id, token: Option<Token>, answer: Answer) returns (ok: bool, started: bool)
      requires Valid()
      modifies this
      ensures Valid() && ok == (answer == Answered || answer == NothingStarted)
              && started == (answer == Answered || answer == Lost)
      ensures started ==> tasks == Launched(old(tasks), old(nextArn), id, token)
      ensures started ==> nextArn == old(nextArn) + 1 && states == old(states) + [tasks]
      ensures !started ==> tasks == old(tasks) && nextArn == old(nextArn) && states == old(states)
    {
      ok, started := answer == Answered || answer == NothingStarted, answer == Answered || answer == Lost;
      if started {
        tasks, nextArn := Launched(tasks, nextArn, id, token), nextArn + 1;
        states := states + [tasks];
      }
    }
  }

  class EcsActuator {
    const cluster: Cluster
    /** How often a restart polls before it gives up. */
    const attempts: nat

    constructor (cluster: Cluster, attempts: nat)
      ensures this.cluster == cluster && this.attempts == attempts
    {
      this.cluster, this.attempts := cluster, attempts;
    }

    method Provision(id: Id, token: Token, w: Weather) returns (ok: bool)
      requires cluster.Valid()
      modifies cluster
      ensures var r := Provisioned(old(cluster.tasks), old(cluster.nextArn), id, token, w);
              && cluster.Valid() && cluster.states == old(cluster.states) + r.states
              && cluster.tasks == r.Now() && cluster.nextArn == r.nextArn && ok == r.ok
    {
      cluster.PassTime(w.drift(0));
      var started;
      ok, started := cluster.RunTask(id, Some(token), w.run);
      if !started {
        ok := false;
      }
    }

    /** Polls until the task has reached STOPPED or is gone. */
    method WaitUntilStopped(arn: Arn, w: Weather, ghost before: seq<Tasks>, ghost p: Passage) returns (ok: bool)
      requires cluster.Valid() && p.states != [] && p.Now() == cluster.tasks && p.nextArn == cluster.nextArn && p.ok
      requires cluster.states == before + p.states
      modifies cluster
      ensures var r := Waited(p, arn, w, 0, attempts);
              && cluster.Valid() && cluster.nextArn == r.nextArn && cluster.tasks == r.Now() && ok == r.ok
              && cluster.states == before + r.states
    {
      ghost var q := p;
      for k := 0 to attempts
        invariant cluster.Valid() && q.states != [] && q.Now() == cluster.tasks && q.nextArn == cluster.nextArn && q.ok
        invariant cluster.states == before + q.states
        invariant Waited(p, arn, w, 0, attempts) == Waited(q, arn, w, k, attempts)
      {
        cluster.PassTime(w.drift(k + 2));
        q := q.To(cluster.tasks);
        if w.pollFails(k) {
          return false;
        }
        if arn !in cluster.tasks || cluster.tasks[arn].status == Stopped {
          return true;
        }
      }
      return false;
    }

    /** Looks the task up and asks for it to stop. */
    method FindAndStop(arn: Arn, w: Weather) returns (task: Option<Task>, ghost p: Passage)
      requires cluster.Valid()
      modifies cluster
      ensures p == StopFirst(old(cluster.tasks), old(cluster.nextArn), arn, w)
      ensures cluster.Valid() && cluster.states == old(cluster.states) + p.states
      ensures cluster.tasks == p.Now() && cluster.nextArn == p.nextArn
      ensures task == if p.ok then Some(p.states[0][arn]) else None
    {
      cluster.PassTime(w.drift(0));
      p := Passage([cluster.tasks], cluster.nextArn, true);
      if w.describeFails || arn !in cluster.tasks || cluster.tasks[arn].token.None? {
        return None, p.Failed();
      }
      var found := cluster.tasks[arn];
      cluster.PassTime(w.drift(1));
      p := p.To(cluster.tasks);
      var stopping := cluster.StopTask(arn, w.stop);
      if w.stop != Refused {
        p := p.To(cluster.tasks);
      }
      return if stopping then Some(found) else None, p.(ok := stopping);
    }

    /** Stop, wait, and only then run the same token again. */
    method Restart(arn: Arn, w: Weather) returns (ok: bool)
      requires cluster.Valid()
      modifies cluster
      ensures var r := Restarted(old(cluster.tasks), old(cluster.nextArn), arn, w, attempts);
              && cluster.Valid() && cluster.states == old(cluster.states) + r.states
              && cluster.tasks == r.Now() && cluster.nextArn == r.nextArn && ok == r.ok
    {
      var task, p := FindAndStop(arn, w);
      if task.None? {
        return false;
      }
      var stopped := WaitUntilStopped(arn, w, old(cluster.states), p);
      if !stopped {
        return false;
      }
      var started;
      ok, started := cluster.RunTask(task.value.id, task.value.token, w.run);
    }

    method Deprovision(arn: Arn, w: Weather) returns (ok: bool)
      requires cluster.Valid()
      modifies cluster
      ensures var r := Deprovisioned(old(cluster.tasks), old(cluster.nextArn), arn, w);
              && cluster.Valid() && cluster.states == old(cluster.states) + r.states
              && cluster.tasks == r.Now() && cluster.nextArn == r.nextArn && ok == r.ok
    {
      cluster.PassTime(w.drift(0));
      ok := cluster.StopTask(arn, w.stop);
    }
  }
}
