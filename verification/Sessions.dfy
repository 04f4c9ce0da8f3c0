/** Which session a completion callback finds: FIFO jobs and FIFO callbacks keep sessions apart. */
module Sessions {
  import opened Protocol

  /** Who a queued job or callback acts for; `load` marks a character load, which has no session yet. */
  datatype Tag = Tag(load: bool, conn: int, inst: nat, ch: int)

  function SessionTag(src: Session): Tag {
    Tag(false, src.conn, src.inst, src.ch)
  }

  function JobTag(job: Job): Tag {
    match job
    case Task(src, _) => SessionTag(src)
    case Load(conn, ch, _) => Tag(true, conn, 0, ch)
  }

  function CallbackTag(cb: Callback): Tag {
    match cb
    case Committed(src, _, _) => SessionTag(src)
    case Refused(src, _) => SessionTag(src)
    case Loaded(conn, ch, _, _, _) => Tag(true, conn, 0, ch)
  }

  function JobTags(jobs: seq<Job>): (tags: seq<Tag>)
    ensures |tags| == |jobs|
  {
    seq(|jobs|, i requires 0 <= i < |jobs| => JobTag(jobs[i]))
  }

  function CallbackTags(done: seq<Callback>): (tags: seq<Tag>)
    ensures |tags| == |done|
  {
    seq(|done|, i requires 0 <= i < |done| => CallbackTag(done[i]))
  }

  /** Everything still on its way, in the order in which its callbacks will run. */
  function Pipeline(s: State): seq<Tag> {
    CallbackTags(s.done) + JobTags(s.jobs)
  }

  predicate Shares(a: Tag, b: Tag) {
    a.conn == b.conn || a.ch == b.ch
  }

  /** Nothing behind a load concerns its connection or its character. */
  ghost predicate LoadsLast(q: seq<Tag>) {
    forall i, j | 0 <= i < j < |q| && q[i].load :: !Shares(q[i], q[j])
  }

  /** What is on its way for a player's connection or character was issued by exactly that session. */
  ghost predicate OwnWork(s: State) {
    forall c, t | c in s.players && t in Pipeline(s) && Shares(t, SessionTag(s.players[c].session))
      :: t == SessionTag(s.players[c].session)
  }

  predicate PlayersKeyed(s: State) {
    (forall c | c in s.players :: s.players[c].session.conn == c)
    && (forall c, d | c in s.players && d in s.players && s.players[c].session.ch == s.players[d].session.ch :: c == d)
  }

  ghost predicate Separated(s: State) {
    PlayersKeyed(s) && LoadsLast(Pipeline(s)) && OwnWork(s)
  }

  /** A character may be entered when neither it nor its connection is in the world or still loading. */
  predicate MayEnter(s: State, conn: int, ch: int) {
    conn !in s.players && !Online(s, ch)
    && forall t | t in Pipeline(s) && t.load :: t.conn != conn && t.ch != ch
  }

  /** The discipline on clients: every other step may happen at any time. */
  predicate Orderly(s: State, step: Step) {
    step.Enter? ==> MayEnter(s, step.conn, step.ch)
  }

  predicate OrderlyRun(items: ItemTable, s: State, steps: seq<Step>)
    decreases |steps|
  {
    steps == [] || (Orderly(s, steps[0]) && OrderlyRun(items, Next(items, s, steps[0]), steps[1..]))
  }

  lemma PipelineQueued(s: State, job: Job)
    ensures Pipeline(s.(jobs := s.jobs + [job])) == Pipeline(s) + [JobTag(job)]
  {
  }

  lemma PipelineRanJob(items: ItemTable, s: State, mapId: int, throws: bool)
    requires s.jobs != []
    ensures var n := |s.done|; var q := Pipeline(RunJob(items, s, mapId, throws));
            n < |Pipeline(s)| && (q == Pipeline(s) || q == Pipeline(s)[..n] + Pipeline(s)[n + 1..])
  {
    hide Perform, LoadCharacter, JobTags, CallbackTags;
    var next, tag := RunJob(items, s, mapId, throws), JobTag(s.jobs[0]);
    FirstJobTag(s.jobs);
    assert next.jobs == s.jobs[1..];
    if next.done != s.done {
      var cb := next.done[|s.done|];
      assert next.done == s.done + [cb] && CallbackTag(cb) == tag;
      LastCallbackTag(s.done, cb);
      assert Pipeline(next) == Pipeline(s);
    }
  }

  lemma FirstJobTag(jobs: seq<Job>)
    requires jobs != []
    ensures JobTags(jobs) == [JobTag(jobs[0])] + JobTags(jobs[1..])
  {
  }

  lemma LastCallbackTag(done: seq<Callback>, cb: Callback)
    ensures CallbackTags(done + [cb]) == CallbackTags(done) + [CallbackTag(cb)]
  {
  }

  lemma LoadsLastWithout(q: seq<Tag>, n: nat)
    requires LoadsLast(q) && n < |q|
    ensures LoadsLast(q[..n] + q[n + 1..]) && forall t | t in q[..n] + q[n + 1..] :: t in q
  {
    var rest := q[..n] + q[n + 1..];
    assert forall i | 0 <= i < |rest| :: rest[i] == q[if i < n then i else i + 1];
  }

  lemma PipelineCalledBack(s: State)
    requires s.done != []
    ensures Pipeline(RunCallback(s)) == Pipeline(s)[1..]
  {
  }

  lemma KeepsFewer(s: State, next: State)
    requires Separated(s) && PlayersKeyed(next)
    requires forall c | c in next.players :: c in s.players && next.players[c].session == s.players[c].session
    requires LoadsLast(Pipeline(next)) && forall t | t in Pipeline(next) :: t in Pipeline(s)
    ensures Separated(next)
  {
  }

  lemma EffectsKeepSession(p: Player, es: seq<Effect>)
    ensures ApplyEffects(p, es).session == p.session
    decreases |es|
  {
    if es != [] {
      EffectsKeepSession(ApplyEffect(p, es[0]), es[1..]);
    }
  }

  lemma MessageKeepsSeparated(items: ItemTable, s: State, conn: int, req: Request)
    requires Separated(s)
    ensures Separated(Handle(items, s, conn, req))
  {
    var next := Handle(items, s, conn, req);
    if |next.jobs| > |s.jobs| {
      var job := next.jobs[|s.jobs|];
      PipelineQueued(s, job);
      assert Pipeline(next) == Pipeline(s) + [JobTag(job)];
      assert forall t | t in Pipeline(s) && t.load :: !Shares(t, JobTag(job));
    } else {
      assert Pipeline(next) == Pipeline(s);
    }
  }

  lemma CallbackKeepsSeparated(s: State)
    requires Separated(s) && s.done != []
    ensures Separated(RunCallback(s))
  {
    var next := RunCallback(s);
    PipelineCalledBack(s);
    var q := Pipeline(s);
    assert q[0] == CallbackTag(s.done[0]);
    if s.done[0].Committed? && s.done[0].src.conn in s.players {
      EffectsKeepSession(s.players[s.done[0].src.conn], s.done[0].effects);
    }
    if s.done[0].Loaded? && next.players != s.players {
      JoinKeepsSeparated(s);
    } else {
      KeepsFewer(s, next);
    }
  }

  lemma JoinKeepsSeparated(s: State)
    requires Separated(s) && s.done != [] && s.done[0].Loaded? && RunCallback(s).players != s.players
    ensures Separated(RunCallback(s))
  {
    var next := RunCallback(s);
    PipelineCalledBack(s);
    var q := Pipeline(s);
    assert q[0] == CallbackTag(s.done[0]);
    hide Pipeline;
    forall c, t | c in next.players && t in q[1..] && Shares(t, SessionTag(next.players[c].session))
      ensures t == SessionTag(next.players[c].session)
    {
      assert t in q && !Shares(q[0], t);
    }
  }

  /** Every step, in any interleaving, keeps sessions apart. */
  lemma StepKeepsSeparated(items: ItemTable, s: State, step: Step)
    requires Separated(s) && Orderly(s, step)
    ensures Separated(Next(items, s, step))
  {
    if step.Message? {
      MessageKeepsSeparated(items, s, step.conn, step.req);
    } else if step.NextJob? {
      JobKeepsSeparated(items, s, step.mapId, step.throws);
    } else if step.NextCallback? {
      if s.done != [] {
        CallbackKeepsSeparated(s);
      }
    } else {
      OuterStepKeepsSeparated(items, s, step);
    }
    hide Separated, Handle, RunJob;
  }

  lemma JobKeepsSeparated(items: ItemTable, s: State, mapId: int, throws: bool)
    requires Separated(s)
    ensures Separated(RunJob(items, s, mapId, throws))
  {
    hide Perform, LoadCharacter, Pipeline;
    if s.jobs != [] {
      PipelineRanJob(items, s, mapId, throws);
      LoadsLastWithout(Pipeline(s), |s.done|);
      KeepsFewer(s, RunJob(items, s, mapId, throws));
    }
  }

  lemma OuterStepKeepsSeparated(items: ItemTable, s: State, step: Step)
    requires Separated(s) && Orderly(s, step) && (step.Connect? || step.Enter? || step.Exit? || step.Expire?)
    ensures Separated(Next(items, s, step))
  {
    if step.Enter? {
      PipelineQueued(s, Load(step.conn, step.ch, step.account));
    } else {
      assert Pipeline(Next(items, s, step)) == Pipeline(s);
    }
    hide Pipeline;
  }

  /** Being orderly is no more than needed: an entry keeps sessions apart if and only if it was allowed. */
  lemma EnterKeepsSeparatedIff(items: ItemTable, s: State, conn: int, ch: int, account: int)
    requires Separated(s)
    ensures Separated(Next(items, s, Enter(conn, ch, account))) <==> MayEnter(s, conn, ch)
  {
    var job := Load(conn, ch, account);
    var next := Next(items, s, Enter(conn, ch, account));
    var q, tag := Pipeline(s), JobTag(job);
    PipelineQueued(s, job);
    if MayEnter(s, conn, ch) {
      OuterStepKeepsSeparated(items, s, Enter(conn, ch, account));
    } else {
      hide Pipeline;
      assert tag in Pipeline(next) && Pipeline(next)[|q|] == tag;
      if conn !in s.players && !Online(s, ch) {
        var i :| 0 <= i < |q| && q[i].load && (q[i].conn == conn || q[i].ch == ch);
        assert Pipeline(next)[i] == q[i] && Shares(q[i], tag);
        assert !LoadsLast(Pipeline(next));
      } else {
        var c :| c in s.players && (c == conn || s.players[c].session.ch == ch);
        assert c in next.players && Shares(tag, SessionTag(next.players[c].session));
      }
    }
  }

  ghost predicate SeparatedThroughout(items: ItemTable, s: State, steps: seq<Step>)
    decreases |steps|
  {
    Separated(s) && (steps == [] || SeparatedThroughout(items, Next(items, s, steps[0]), steps[1..]))
  }

  /** So a run is orderly if and only if sessions are kept apart at every state of it. */
  lemma {:induction false} OrderlyIffSeparated(items: ItemTable, s: State, steps: seq<Step>)
    requires Separated(s)
    ensures OrderlyRun(items, s, steps) <==> SeparatedThroughout(items, s, steps)
    decreases |steps|
  {
    hide Separated, Next, MayEnter;
    if steps != [] {
      var step := steps[0];
      if step.Enter? {
        EnterKeepsSeparatedIff(items, s, step.conn, step.ch, step.account);
      } else {
        StepKeepsSeparated(items, s, step);
      }
      if Separated(Next(items, s, step)) {
        OrderlyIffSeparated(items, Next(items, s, step), steps[1..]);
      }
    }
  }

  /** In every state of an orderly run, the next callback finds on its connection the very session that issued its
      job, or no player at all; a load finds neither its connection nor its character in the world. */
  lemma CallbackFindsItsSession(s: State)
    requires Separated(s) && s.done != []
    ensures var cb := s.done[0];
            (!cb.Loaded? && cb.src.conn in s.players ==> s.players[cb.src.conn].session == cb.src)
            && (cb.Loaded? ==> cb.conn !in s.players && !Online(s, cb.ch))
  {
    assert CallbackTag(s.done[0]) == Pipeline(s)[0];
    assert Pipeline(s)[0] in Pipeline(s);
  }
}
