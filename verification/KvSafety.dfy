/**
  What every run of the key/value service keeps: each call takes effect at most once, the
  table holds results of calls that are executed and not yet confirmed, and the effects, in
  the order they happen, linearize what the callers see.
 */
module KvSafety {
  import opened Wrappers
  import opened Linearizability
  import opened History
  import opened KvModel
  import opened KvServer
  import opened KvProtocol
  import KvCheck
  import opened KvMeaning

  // ------------------------------------------------------------------ the invariant

  ghost predicate NotRun(log: seq<Effect>, id: int) {
    forall i :: 0 <= i < |log| ==> log[i].r.id != id
  }

  ghost predicate Open(e: Effect, c: int, r: Request, start: int) {
    e.client == c && e.r == r && e.start == start && e.ret == None
  }

  // The call has taken effect, with this result, and has not returned.
  ghost predicate Ran(log: seq<Effect>, c: int, r: Request, start: int, value: string) {
    exists i :: 0 <= i < |log| && Open(log[i], c, r, start) && log[i].value == value
  }

  // Not executed and not on file, or executed and on file.
  ghost predicate Settled(status: map<int, string>, log: seq<Effect>, c: int, r: Request, start: int) {
    if r.id in status then Ran(log, c, r, start, status[r.id]) else NotRun(log, r.id)
  }

  ghost predicate PhaseOk(status: map<int, string>, log: seq<Effect>, c: int, p: Phase) {
    match p
    case Idle => true
    case Ready(r, start) => Settled(status, log, c, r, start)
    case Sent(r, start) => Settled(status, log, c, r, start)
    case Reading(r, start, value) => r.op == Get && r.id !in status && Ran(log, c, r, start, value)
    case Checked(r, _) => r.op != Get && r.id !in status && NotRun(log, r.id)
    case Replied(r, start, value) => r.id in status && status[r.id] == value && Ran(log, c, r, start, value)
    case Answered(r, start, value) => (r.id in status ==> status[r.id] == value) && Ran(log, c, r, start, value)
    case Confirming(r, start, value) => (r.id in status ==> status[r.id] == value) && Ran(log, c, r, start, value)
    case Confirmed(r, start, value) => r.id !in status && Ran(log, c, r, start, value)
  }

  // Called and not yet confirmed.
  predicate Unconfirmed(p: Phase) {
    p.Ready? || p.Sent? || p.Replied? || p.Answered? || p.Confirming?
  }

  ghost predicate InvIds(w: World) {
    && (forall c :: 0 <= c < |w.clerks| && !w.clerks[c].Idle? ==> w.clerks[c].r.id in w.used)
    && (forall c, d :: 0 <= c < d < |w.clerks| && !w.clerks[c].Idle? && !w.clerks[d].Idle? ==>
          w.clerks[c].r.id != w.clerks[d].r.id)
  }

  ghost predicate InvOnce(w: World) {
    && (forall i :: 0 <= i < |w.log| ==> w.log[i].r.id in w.used)
    && (forall i, j :: 0 <= i < j < |w.log| ==> w.log[i].r.id != w.log[j].r.id)
  }

  ghost predicate InvPhases(w: World) {
    forall c :: 0 <= c < |w.clerks| ==> PhaseOk(w.server.status, w.log, c, w.clerks[c])
  }

  ghost predicate Holder(w: World, c: int, id: int) {
    0 <= c < |w.clerks| && Unconfirmed(w.clerks[c]) && w.clerks[c].r.id == id
  }

  ghost predicate InvStatus(w: World) {
    forall id :: id in w.server.status ==> exists c :: Holder(w, c, id)
  }

  // An effect whose caller has not returned belongs to that caller's current call.
  ghost predicate InvOpen(w: World) {
    forall i :: 0 <= i < |w.log| && w.log[i].ret == None ==>
      var c := w.log[i].client;
      c < |w.clerks| && !w.clerks[c].Idle? && Open(w.log[i], c, w.clerks[c].r, w.clerks[c].start)
  }

  // Effects happen between call and return, one after the other.
  ghost predicate InvTimes(w: World) {
    && (forall c :: 0 <= c < |w.clerks| && !w.clerks[c].Idle? ==> w.clerks[c].start <= w.clock)
    && (forall i :: 0 <= i < |w.log| ==> w.log[i].start <= w.log[i].at <= End(w.log[i], w.clock) <= w.clock)
    && (forall i, j :: 0 <= i < j < |w.log| ==> w.log[i].at <= w.log[j].at)
  }

  ghost function End(e: Effect, now: int): int {
    if e.ret.Some? then e.ret.value else now
  }

  // The logged operations; one that has not returned is given the present as its return.
  ghost function OpOf(e: Effect, now: int): KvOperation {
    Recorded(e.client, e.r, e.start, e.value, End(e, now))
  }

  ghost function LogOps(log: seq<Effect>, now: int): (r: seq<KvOperation>)
    ensures |r| == |log| && forall i :: 0 <= i < |log| ==> r[i] == OpOf(log[i], now)
  {
    seq(|log|, i requires 0 <= i < |log| => OpOf(log[i], now))
  }

  // The map is what the logged operations leave, and each of them was answered correctly.
  ghost predicate InvState(w: World) {
    && Accepted(Whole(), LogOps(w.log, 0))
    && forall key :: Lookup(w.server.kvMap, key) == Lookup(StateAfter(Whole(), LogOps(w.log, 0)), key)
  }

  ghost function Done(log: seq<Effect>, closed: bool, now: int): seq<KvOperation> {
    if log == [] then []
    else
      var k := |log| - 1;
      var before := Done(log[..k], closed, now);
      if log[k].ret.Some? == closed then before + [OpOf(log[k], now)] else before
  }

  // What the callers recorded is what returned.
  ghost predicate InvHistory(w: World) {
    multiset(w.history) == multiset(Done(w.log, true, 0))
  }

  ghost predicate Inv(w: World) {
    InvIds(w) && InvOnce(w) && InvPhases(w) && InvStatus(w) && InvOpen(w) && InvTimes(w) && InvState(w) && InvHistory(w)
  }

  // ------------------------------------------------------------------ what a step changes

  ghost function IdOf(w: World, a: Action): int
    requires Enabled(w, a)
  {
    if a.Invoke? then a.r.id else w.clerks[a.c].r.id
  }

  // Nothing changes for another request.
  ghost predicate SameFor(w: World, w': World, id: int) {
    && (id in w.server.status <==> id in w'.server.status)
    && (id in w.server.status ==> w'.server.status[id] == w.server.status[id])
    && |w.log| <= |w'.log|
    && (forall i :: 0 <= i < |w.log| ==> w'.log[i].r.id == w.log[i].r.id && (w.log[i].r.id == id ==>
      w'.log[i] == w.log[i]))
    && (forall i :: |w.log| <= i < |w'.log| ==> w'.log[i].r.id != id)
  }

  lemma StepShape(w: World, a: Action)
    requires Enabled(w, a)
    ensures var w' := Act(w, a);
      && |w'.clerks| == |w.clerks| && (forall d :: 0 <= d < |w.clerks| && d != a.c ==> w'.clerks[d] == w.clerks[d])
      && (!w'.clerks[a.c].Idle? ==> w'.clerks[a.c].r.id == IdOf(w, a))
      && w'.used == if a.Invoke? then w.used + {IdOf(w, a)} else w.used
  {
  }

  lemma StepElsewhere(w: World, a: Action, id: int)
    requires Enabled(w, a) && id != IdOf(w, a)
    ensures SameFor(w, Act(w, a), id)
  {
  }

  lemma PhaseSame(w: World, w': World, c: int, p: Phase)
    requires PhaseOk(w.server.status, w.log, c, p) && (!p.Idle? ==> SameFor(w, w', p.r.id))
    ensures PhaseOk(w'.server.status, w'.log, c, p)
  {
    if !p.Idle? {
      forall start, value | Ran(w.log, c, p.r, start, value) ensures Ran(w'.log, c, p.r, start, value) {
        var i :| 0 <= i < |w.log| && Open(w.log[i], c, p.r, start) && w.log[i].value == value;
        assert w'.log[i] == w.log[i];
      }
      assert NotRun(w.log, p.r.id) ==> NotRun(w'.log, p.r.id);
    }
  }

  // ------------------------------------------------------------------ preservation

  lemma KeepsIds(w: World, a: Action)
    requires Enabled(w, a) && InvIds(w)
    ensures InvIds(Act(w, a))
  {
    StepShape(w, a);
    hide Act, Enabled;
    var w' := Act(w, a);
    assert !w.clerks[a.c].Idle? || a.Invoke? by { StartsIdle(w, a); }
  }

  lemma StartsIdle(w: World, a: Action)
    requires Enabled(w, a)
    ensures a.c < |w.clerks|
    ensures if a.Invoke? then w.clerks[a.c].Idle? && a.r.id !in w.used else !w.clerks[a.c].Idle?
  {
  }

  lemma RanNow(log: seq<Effect>, e: Effect)
    requires e.ret == None
    ensures Ran(log + [e], e.client, e.r, e.start, e.value)
  {
    assert (log + [e])[|log|] == e;
  }

  // A new id is not on file and has not run.
  lemma OwnInvoke(w: World, a: Action)
    requires Enabled(w, a) && a.Invoke? && InvIds(w) && InvOnce(w) && InvStatus(w)
    ensures Settled(w.server.status, w.log, a.c, a.r, w.clock)
  {
    OnFileUsed(w);
  }

  lemma OnFileUsed(w: World)
    requires InvIds(w) && InvStatus(w)
    ensures forall id :: id in w.server.status ==> id in w.used
  {
    forall id | id in w.server.status ensures id in w.used {
      var c :| Holder(w, c, id);
    }
  }

  lemma OwnFirst(w: World, a: Action)
    requires Enabled(w, a) && a.First? && PhaseOk(w.server.status, w.log, a.c, w.clerks[a.c])
    ensures PhaseOk(Act(w, a).server.status, Act(w, a).log, a.c, Act(w, a).clerks[a.c])
  {
    hide Ran;
    var p := w.clerks[a.c];
    RanNow(w.log, Effect(a.c, p.r, Lookup(w.server.kvMap, p.r.key), p.start, w.clock, None));
  }

  lemma OwnSecond(w: World, a: Action)
    requires Enabled(w, a) && a.Second? && PhaseOk(w.server.status, w.log, a.c, w.clerks[a.c])
    ensures PhaseOk(Act(w, a).server.status, Act(w, a).log, a.c, Act(w, a).clerks[a.c])
  {
    hide Ran;
    var p := w.clerks[a.c];
    RanNow(w.log, Effect(a.c, p.r, Lookup(w.server.kvMap, p.r.key), p.start, w.clock, None));
  }

  // The clerk that moves finds its own call as it must be.
  lemma KeepsOwnPhase(w: World, a: Action)
    requires Enabled(w, a) && InvIds(w) && InvOnce(w) && InvStatus(w)
    requires PhaseOk(w.server.status, w.log, a.c, w.clerks[a.c])
    ensures PhaseOk(Act(w, a).server.status, Act(w, a).log, a.c, Act(w, a).clerks[a.c])
  {
    hide Ran, NotRun, InvIds, InvOnce, InvStatus;
    match a
    case Invoke(_, _) => OwnInvoke(w, a);
    case First(_) => OwnFirst(w, a);
    case Second(_) => OwnSecond(w, a);
    case _ =>
  }

  lemma KeepsPhases(w: World, a: Action)
    requires Enabled(w, a) && Inv(w)
    ensures InvPhases(Act(w, a))
  {
    var w' := Act(w, a);
    hide Act, Enabled, PhaseOk, InvState, InvHistory, InvTimes, InvOpen, InvStatus, InvOnce;
    KeepsOwnPhase(w, a);
    StepShape(w, a);
    StartsIdle(w, a);
    forall d | 0 <= d < |w'.clerks| ensures PhaseOk(w'.server.status, w'.log, d, w'.clerks[d]) {
      if d != a.c {
        if !w.clerks[d].Idle? {
          assert w.clerks[d].r.id != IdOf(w, a);
          StepElsewhere(w, a, w.clerks[d].r.id);
        }
        PhaseSame(w, w', d, w.clerks[d]);
      }
    }
  }

  // The table: entries come with an effect and go with the confirmation.
  lemma KeepsStatus(w: World, a: Action)
    requires Enabled(w, a) && Inv(w)
    ensures InvStatus(Act(w, a))
  {
    hide Act, Enabled, PhaseOk, InvState, InvHistory, InvTimes, InvOpen, InvOnce;
    var w', own := Act(w, a), IdOf(w, a);
    StartsIdle(w, a);
    StepShape(w, a);
    OwnHolder(w, a);
    hide InvPhases;
    forall id | id in w'.server.status ensures exists c :: Holder(w', c, id) {
      if id == own {
        assert Holder(w', a.c, id);
      } else {
        StepElsewhere(w, a, id);
        var c :| Holder(w, c, id);
        assert c != a.c;
        assert Holder(w', c, id);
      }
    }
  }

  lemma OwnHolder(w: World, a: Action)
    requires Enabled(w, a) && InvIds(w) && InvOnce(w) && InvStatus(w)
    requires PhaseOk(w.server.status, w.log, a.c, w.clerks[a.c])
    ensures IdOf(w, a) in Act(w, a).server.status ==> Holder(Act(w, a), a.c, IdOf(w, a))
  {
    hide Ran, NotRun, InvOnce;
    KeepsOwnPhase(w, a);
    if a.Invoke? { OwnInvoke(w, a); }
  }

  // ------------------------------------------------------------------ the log

  // The two steps at which a call takes effect.
  predicate Executes(w: World, a: Action)
    requires Enabled(w, a)
  {
    || (a.First? && w.clerks[a.c].r.op == Get && w.clerks[a.c].r.id !in w.server.status)
    || (a.Second? && w.clerks[a.c].Checked?)
  }

  ghost function NewEffect(w: World, a: Action): Effect
    requires Enabled(w, a) && Executes(w, a)
  {
    var p := w.clerks[a.c];
    Effect(a.c, p.r, Lookup(w.server.kvMap, p.r.key), p.start, w.clock, None)
  }

  lemma LogStep(w: World, a: Action)
    requires Enabled(w, a)
    ensures var w' := Act(w, a);
      && w'.clock == w.clock + 1
      && w'.log == (if Executes(w, a) then w.log + [NewEffect(w, a)]
                    else if a.Return? then Close(w.log, w.clerks[a.c].r.id, w.clock) else w.log)
      && (!a.Invoke? && !a.Return? ==>
            (&& !w'.clerks[a.c].Idle? && w'.clerks[a.c].r == w.clerks[a.c].r
             && w'.clerks[a.c].start == w.clerks[a.c].start))
      && (a.Invoke? ==> w'.clerks[a.c] == Ready(a.r, w.clock))
      && (a.Return? ==> w'.clerks[a.c] == Idle)
      && (!a.Return? ==> w'.history == w.history)
  {
  }

  // A call that takes effect has not done so before.
  lemma ExecutesFresh(w: World, a: Action)
    requires Enabled(w, a) && Executes(w, a) && PhaseOk(w.server.status, w.log, a.c, w.clerks[a.c])
    ensures NotRun(w.log, w.clerks[a.c].r.id) && !w.clerks[a.c].Idle?
  {
  }

  lemma KeepsOnce(w: World, a: Action)
    requires Enabled(w, a) && InvIds(w) && InvOnce(w) && PhaseOk(w.server.status, w.log, a.c, w.clerks[a.c])
    ensures InvOnce(Act(w, a))
  {
    LogStep(w, a);
    StepShape(w, a);
    if Executes(w, a) { ExecutesFresh(w, a); }
    hide Act, Enabled, PhaseOk, Executes;
  }

  lemma KeepsOpen(w: World, a: Action)
    requires Enabled(w, a) && InvOpen(w)
    ensures InvOpen(Act(w, a))
  {
    LogStep(w, a);
    StepShape(w, a);
    StartsIdle(w, a);
    hide Act, Enabled, Executes;
    var w' := Act(w, a);
    forall i | 0 <= i < |w'.log| && w'.log[i].ret == None
      ensures var c := w'.log[i].client;
        c < |w'.clerks| && !w'.clerks[c].Idle? && Open(w'.log[i], c, w'.clerks[c].r, w'.clerks[c].start)
    {
      if i < |w.log| { assert w.log[i] == w'.log[i]; }
    }
  }

  lemma KeepsTimes(w: World, a: Action)
    requires Enabled(w, a) && InvTimes(w)
    ensures InvTimes(Act(w, a))
  {
    LogStep(w, a);
    StepShape(w, a);
    StartsIdle(w, a);
    hide Act, Enabled, Executes;
    var w' := Act(w, a);
    forall i | 0 <= i < |w'.log| ensures w'.log[i].start <= w'.log[i].at <= End(w'.log[i], w'.clock) <= w'.clock {
      if i < |w.log| { assert w.log[i].start <= w.log[i].at <= End(w.log[i], w.clock) <= w.clock; }
    }
    forall i, j | 0 <= i < j < |w'.log| ensures w'.log[i].at <= w'.log[j].at {
      assert w.log[i].at <= w.clock;
      if j < |w.log| { assert w.log[i].at <= w.log[j].at; }
    }
  }

  // ------------------------------------------------------------------ the state

  // Acceptance looks at inputs and outputs only.
  lemma {:induction false} SameSteps<S(!new)>(m: Model<S, KvValue>, s: seq<KvOperation>, t: seq<KvOperation>)
    requires |s| == |t| && forall i :: 0 <= i < |s| ==> s[i].input == t[i].input && s[i].output == t[i].output
    ensures StateAfter(m, s) == StateAfter(m, t) && (Accepted(m, s) <==> Accepted(m, t))
    decreases |s|
  {
    if s != [] { SameSteps(m, s[..|s| - 1], t[..|t| - 1]); }
  }

  lemma ServerStep(w: World, a: Action)
    requires Enabled(w, a)
    ensures Act(w, a).server.kvMap ==
      if a.Second? && w.clerks[a.c].Checked? then Apply(w.server, w.clerks[a.c].r).kvMap else w.server.kvMap
  {
  }

  // The effect of a call is the model's step, and its result is the one the model demands.
  lemma EffectIsStep(w: World, a: Action, state: map<string, string>)
    requires Enabled(w, a) && Executes(w, a) && !w.clerks[a.c].Idle? && (a.Second? ==> w.clerks[a.c].r.op != Get)
    requires forall key :: Lookup(w.server.kvMap, key) == Lookup(state, key)
    ensures var op := OpOf(NewEffect(w, a), 0);
      && Whole().step(state, op.input, op.output).0
      && forall key :: Lookup(Act(w, a).server.kvMap, key) == Lookup(Whole().step(state, op.input, op.output).1, key)
  {
    ServerStep(w, a);
    var op := OpOf(NewEffect(w, a), 0);
    Steps("", state, op);
    var r := w.clerks[a.c].r;
    assert Lookup(w.server.kvMap, r.key) == Lookup(state, r.key);
    hide Act, Whole;
    forall key ensures Lookup(Act(w, a).server.kvMap, key) == Lookup(StepWhole(state, op.input, op.output).1, key) {
      assert Lookup(w.server.kvMap, key) == Lookup(state, key);
    }
  }

  lemma ExecutesKeepsState(w: World, a: Action)
    requires Enabled(w, a) && Executes(w, a) && InvState(w) && PhaseOk(w.server.status, w.log, a.c, w.clerks[a.c])
    ensures InvState(Act(w, a))
  {
    LogStep(w, a);
    var before, op := LogOps(w.log, 0), OpOf(NewEffect(w, a), 0);
    EffectIsStep(w, a, StateAfter(Whole(), before));
    hide Act, Accepted, StateAfter, Whole, Enabled, PhaseOk, Executes, Lookup;
    assert LogOps(Act(w, a).log, 0) == before + [op];
    OneMore(Whole(), before, op);
  }

  lemma KeepsState(w: World, a: Action)
    requires Enabled(w, a) && InvState(w) && PhaseOk(w.server.status, w.log, a.c, w.clerks[a.c])
    ensures InvState(Act(w, a))
  {
    if Executes(w, a) {
      ExecutesKeepsState(w, a);
    } else {
      LogStep(w, a);
      ServerStep(w, a);
      hide Act, Accepted, StateAfter, Whole, Enabled, PhaseOk;
      var before, after := LogOps(w.log, 0), LogOps(Act(w, a).log, 0);
      forall i | 0 <= i < |before| ensures before[i].input == after[i].input && before[i].output == after[i].output {}
      SameSteps(Whole(), before, after);
    }
  }

  // ------------------------------------------------------------------ the history

  lemma {:induction false} DoneClose(log: seq<Effect>, id: int, end: int)
    requires forall i, j :: 0 <= i < j < |log| ==> log[i].r.id != log[j].r.id
    ensures NotRun(log, id) ==> Close(log, id, end) == log
    ensures forall i :: 0 <= i < |log| && log[i].r.id == id && log[i].ret == None ==>
      multiset(Done(Close(log, id, end), true, 0)) ==
      multiset(Done(log, true, 0)) + multiset{OpOf(log[i].(ret := Some(end)), 0)}
    decreases |log|
  {
    if log != [] {
      var k := |log| - 1;
      var before, closed := log[..k], Close(log, id, end);
      DoneClose(before, id, end);
      assert closed[..k] == Close(before, id, end);
      forall i | 0 <= i < |log| && log[i].r.id == id && log[i].ret == None
        ensures multiset(Done(closed, true, 0)) ==
          multiset(Done(log, true, 0)) + multiset{OpOf(log[i].(ret := Some(end)), 0)}
      {
        if i < k { assert before[i] == log[i]; } else { assert NotRun(before, id); }
      }
    }
  }

  lemma KeepsHistory(w: World, a: Action)
    requires Enabled(w, a) && InvHistory(w) && InvOnce(w) && PhaseOk(w.server.status, w.log, a.c, w.clerks[a.c])
    ensures InvHistory(Act(w, a))
  {
    LogStep(w, a);
    var w' := Act(w, a);
    if Executes(w, a) {
      assert w'.log[..|w.log|] == w.log;
    } else if a.Return? {
      var p := w.clerks[a.c];
      assert Ran(w.log, a.c, p.r, p.start, p.value);
      var i :| 0 <= i < |w.log| && Open(w.log[i], a.c, p.r, p.start) && w.log[i].value == p.value;
      DoneClose(w.log, p.r.id, w.clock);
      assert w'.history == w.history + [OpOf(w.log[i].(ret := Some(w.clock)), 0)];
    }
  }

  // ------------------------------------------------------------------ every run

  lemma StartInv(w: World)
    requires Start(w)
    ensures Inv(w)
  {
    assert LogOps(w.log, 0) == [];
  }

  lemma ActKeepsInv(w: World, a: Action)
    requires Enabled(w, a) && Inv(w)
    ensures Inv(Act(w, a))
  {
    KeepsIds(w, a);
    KeepsOnce(w, a);
    KeepsPhases(w, a);
    KeepsStatus(w, a);
    KeepsOpen(w, a);
    KeepsTimes(w, a);
    KeepsState(w, a);
    KeepsHistory(w, a);
  }

  lemma {:induction false} RunInv(ws: seq<World>, actions: seq<Action>, i: nat)
    requires IsRun(ws, actions) && i < |ws|
    ensures Inv(ws[i])
  {
    hide Inv, Enabled, Start;
    if i == 0 {
      StartInv(ws[0]);
    } else {
      RunInv(ws, actions, i - 1);
      assert Enabled(ws[i - 1], actions[i - 1]) && ws[i] == Act(ws[i - 1], actions[i - 1]);
      ActKeepsInv(ws[i - 1], actions[i - 1]);
    }
  }

  // ------------------------------------------------------------------ the theorems

  // The calls that took effect and have not returned.
  ghost function Pending(w: World): seq<KvOperation> {
    Done(w.log, false, w.clock)
  }

  lemma LogOpsLast(log: seq<Effect>, now: int)
    requires log != []
    ensures var k := |log| - 1; LogOps(log, now) == LogOps(log[..k], now) + [OpOf(log[k], now)]
  {
    hide OpOf;
  }

  lemma DoneLast(log: seq<Effect>, closed: bool, now: int)
    requires log != []
    ensures var k := |log| - 1;
      Done(log, closed, now) ==
      if log[k].ret.Some? == closed then Done(log[..k], closed, now) + [OpOf(log[k], now)]
      else Done(log[..k], closed, now)
  {
    hide OpOf;
  }

  lemma {:induction false} LogSplits(log: seq<Effect>, now: int)
    ensures multiset(LogOps(log, now)) == multiset(Done(log, true, 0)) + multiset(Done(log, false, now))
    decreases |log|
  {
    if log != [] {
      hide Done, LogOps;
      var k := |log| - 1;
      LogSplits(log[..k], now);
      LogOpsLast(log, now);
      DoneLast(log, true, 0);
      DoneLast(log, false, now);
      assert log[k].ret.Some? ==> OpOf(log[k], 0) == OpOf(log[k], now);
      hide OpOf;
    } else {
      assert LogOps(log, now) == [];
    }
  }

  lemma LogIsLegal(w: World)
    requires Inv(w)
    ensures Legal(Whole(), w.history + Pending(w), LogOps(w.log, w.clock))
  {
    hide Accepted, Whole, StateAfter, Done, RealTime, InvIds, InvOnce, InvPhases, InvStatus, InvOpen, InvTimes;
    SameSteps(Whole(), LogOps(w.log, 0), LogOps(w.log, w.clock));
    LogSplits(w.log, w.clock);
    LogRealTime(w);
  }

  lemma LogRealTime(w: World)
    requires InvTimes(w)
    ensures RealTime(LogOps(w.log, w.clock))
  {
    var order := LogOps(w.log, w.clock);
    forall i, j | 0 <= i < j < |order| ensures order[i].call <= order[j].ret {
      assert w.log[i].start <= w.log[i].at <= w.log[j].at <= End(w.log[j], w.clock);
    }
  }

  // At every moment of every run, what the callers recorded, completed with the calls that
  // took effect and are still under way, is linearizable against the map.
  lemma ServiceLinearizable(ws: seq<World>, actions: seq<Action>, i: nat)
    requires IsRun(ws, actions) && i < |ws|
    ensures Linearizable(Whole(), ws[i].history + Pending(ws[i]))
  {
    RunInv(ws, actions, i);
    LogIsLegal(ws[i]);
  }

  // Once every call has returned, the record itself is linearizable and the table is empty.
  lemma QuiescentLinearizable(ws: seq<World>, actions: seq<Action>, i: nat)
    requires IsRun(ws, actions) && i < |ws| && forall c :: 0 <= c < |ws[i].clerks| ==> ws[i].clerks[c].Idle?
    ensures Linearizable(Whole(), ws[i].history) && ws[i].server.status == map[]
  {
    var w := ws[i];
    RunInv(ws, actions, i);
    LogIsLegal(w);
    AllClosed(w.log, w.clock);
    assert w.history + Pending(w) == w.history;
    NothingOnFile(w);
  }

  lemma NothingOnFile(w: World)
    requires InvStatus(w) && forall c :: 0 <= c < |w.clerks| ==> w.clerks[c].Idle?
    ensures w.server.status == map[]
  {
    assert forall c, id :: !Holder(w, c, id);
    assert forall id :: id !in w.server.status;
  }

  lemma {:induction false} AllClosed(log: seq<Effect>, now: int)
    requires forall i :: 0 <= i < |log| ==> log[i].ret.Some?
    ensures Done(log, false, now) == []
    decreases |log|
  {
    if log != [] { AllClosed(log[..|log| - 1], now); }
  }

  // Exactly once: no request takes effect twice, and those that returned are those recorded.
  lemma ExactlyOnce(ws: seq<World>, actions: seq<Action>, i: nat)
    requires IsRun(ws, actions) && i < |ws|
    ensures forall j, k :: 0 <= j < k < |ws[i].log| ==> ws[i].log[j].r.id != ws[i].log[k].r.id
    ensures multiset(ws[i].history) == multiset(Done(ws[i].log, true, 0))
  {
    RunInv(ws, actions, i);
  }

  // The table holds the result of a call that took effect and is not yet confirmed, no other.
  lemma StatusUnconfirmed(ws: seq<World>, actions: seq<Action>, i: nat, id: int)
    requires IsRun(ws, actions) && i < |ws| && id in ws[i].server.status
    ensures exists c ::
      (&& Holder(ws[i], c, id)
       && Ran(ws[i].log, c, ws[i].clerks[c].r, ws[i].clerks[c].start, ws[i].server.status[id]))
  {
    RunInv(ws, actions, i);
    var w := ws[i];
    hide Ran, NotRun, Inv;
    assert InvStatus(w) && InvPhases(w) by { Parts(w); }
    var c :| Holder(w, c, id);
    assert PhaseOk(w.server.status, w.log, c, w.clerks[c]);
  }

  lemma Parts(w: World)
    requires Inv(w)
    ensures InvStatus(w) && InvPhases(w)
  {
  }

  lemma HistoryTimed(w: World)
    requires Inv(w)
    ensures Timed(w.history)
  {
    LogSplits(w.log, w.clock);
    var order := LogOps(w.log, w.clock);
    hide Done, InvPhases, InvState;
    forall j | 0 <= j < |w.history| ensures w.history[j].call <= w.history[j].ret {
      assert w.history[j] in multiset(w.history);
      assert w.history[j] in multiset(order);
      var k :| 0 <= k < |order| && order[k] == w.history[j];
      assert w.log[k].start <= End(w.log[k], w.clock);
    }
  }

  lemma HistoryTyped(w: World)
    requires InvHistory(w)
    ensures Typed(w.history)
  {
    forall j | 0 <= j < |w.history| ensures w.history[j].input.Input? && w.history[j].output.Output? {
      assert w.history[j] in multiset(w.history);
      DoneTyped(w.log, w.history[j]);
    }
  }

  lemma {:induction false} DoneTyped(log: seq<Effect>, op: KvOperation)
    requires op in multiset(Done(log, true, 0))
    ensures op.input.Input? && op.output.Output?
    decreases |log|
  {
    var k := |log| - 1;
    if op in multiset(Done(log[..k], true, 0)) { DoneTyped(log[..k], op); }
  }

  // The checker, given the record of a run in which every call has returned, says yes.
  method CheckRecord(ghost ws: seq<World>, ghost actions: seq<Action>, ghost i: nat, history: seq<KvOperation>)
    returns (ok: bool)
    requires IsRun(ws, actions) && i < |ws| && forall c :: 0 <= c < |ws[i].clerks| ==> ws[i].clerks[c].Idle?
    requires history == ws[i].history && history != []
    ensures ok
  {
    RunInv(ws, actions, i);
    QuiescentLinearizable(ws, actions, i);
    HistoryTimed(ws[i]);
    HistoryTyped(ws[i]);
    hide Inv, IsRun;
    ok := KvCheck.CheckOperations(history);
  }
}
