/** The shared informer factory. Every method body runs under one lock, so a call is a step; the wait
    of `WaitForCacheSync` is outside it and sees a snapshot. */
module Informers {
  type Type = string

  /** An informer: the order of its construction tells it from all others. */
  datatype Informer = Informer(id: nat, resync: int)

  /** `runs` is the log of the informers that were set running, oldest first. */
  datatype State = State(informers: map<Type, Informer>, started: set<Type>, runs: seq<Informer>, made: nat)

  // ---------------------------------------------------------------- steps

  ghost predicate Requested(s: State, t: Type, resync: int, s': State) {
    if t in s.informers then s' == s
    else s' == s.(informers := s.informers[t := Informer(s.made, resync)], made := s.made + 1)
  }

  /** The informers that were known and not started, each once and in any order. */
  ghost predicate Pending(s: State, batch: seq<Type>) {
    && (forall t :: t in batch <==> t in s.informers && t !in s.started)
    && forall i, j :: 0 <= i < j < |batch| ==> batch[i] != batch[j]
  }

  ghost function InformersOf(s: State, batch: seq<Type>): seq<Informer>
    requires forall t :: t in batch ==> t in s.informers
  {
    seq(|batch|, i requires 0 <= i < |batch| => assert batch[i] in batch; s.informers[batch[i]])
  }

  ghost predicate StartedAll(s: State, s': State) {
    exists batch ::
      && Pending(s, batch)
      && s' == s.(started := s.started + s.informers.Keys, runs := s.runs + InformersOf(s, batch))
  }

  datatype Call = InformerFor(t: Type, resync: int) | Start | WaitForCacheSync

  ghost predicate Step(s: State, c: Call, s': State) {
    match c
    case InformerFor(t, resync) => Requested(s, t, resync, s')
    case Start => StartedAll(s, s')
    case WaitForCacheSync => s' == s
  }

  // ---------------------------------------------------------------- what every step keeps

  ghost predicate Valid(s: State) {
    && s.started <= s.informers.Keys
    && (forall t :: t in s.informers ==> s.informers[t].id < s.made)
    && (forall t, u :: t in s.informers && u in s.informers && t != u ==> s.informers[t].id != s.informers[u].id)
    && (forall i, j :: 0 <= i < j < |s.runs| ==> s.runs[i] != s.runs[j])
    && (forall x :: x in s.runs <==> exists t :: t in s.started && s.informers[t] == x)
  }

  const INITIAL: State := State(map[], {}, [], 0)

  /** What was known stays known and what was run stays run. */
  ghost predicate Grows(s: State, s': State) {
    && (forall t :: t in s.informers ==> t in s'.informers && s'.informers[t] == s.informers[t])
    && s.started <= s'.started && s.runs <= s'.runs
  }

  lemma RequestKeeps(s: State, t: Type, resync: int, s': State)
    requires Valid(s) && Requested(s, t, resync, s')
    ensures Valid(s') && Grows(s, s')
  {
    forall x ensures x in s'.runs <==> exists u :: u in s'.started && s'.informers[u] == x {
      if u :| u in s.started && s.informers[u] == x {
        assert s'.informers[u] == x;
      }
      if u :| u in s'.started && s'.informers[u] == x {
        assert u in s.started && s.informers[u] == x;
      }
    }
  }

  lemma StartKeeps(s: State, batch: seq<Type>, s': State)
    requires Valid(s) && Pending(s, batch)
    requires s' == s.(started := s.started + s.informers.Keys, runs := s.runs + InformersOf(s, batch))
    ensures Valid(s') && Grows(s, s')
  {
    var more := InformersOf(s, batch);
    forall i | 0 <= i < |more| ensures batch[i] in s.informers && batch[i] !in s.started && more[i] == s.informers[batch[i]] {
      assert batch[i] in batch;
    }
    forall i, j | 0 <= i < |s.runs| && 0 <= j < |more| ensures s.runs[i] != more[j] {
      assert s.runs[i] in s.runs;
      var t :| t in s.started && s.informers[t] == s.runs[i];
      assert t != batch[j];
    }
    forall x ensures x in s'.runs <==> exists t :: t in s'.started && s'.informers[t] == x {
      if t :| t in s'.started && s'.informers[t] == x {
        if t in s.started {
          assert x in s.runs;
        } else {
          assert t in batch;
          var i :| 0 <= i < |batch| && batch[i] == t;
          assert more[i] == x;
        }
      }
      if x in more {
        var i :| 0 <= i < |more| && more[i] == x;
        assert batch[i] in s'.started && s'.informers[batch[i]] == x;
      }
    }
  }

  lemma StepKeeps(s: State, c: Call, s': State)
    requires Valid(s) && Step(s, c, s')
    ensures Valid(s') && Grows(s, s')
  {
    match c
    case InformerFor(t, resync) => RequestKeeps(s, t, resync, s');
    case Start =>
      var batch :| Pending(s, batch) && s' == s.(started := s.started + s.informers.Keys, runs := s.runs + InformersOf(s, batch));
      StartKeeps(s, batch, s');
    case WaitForCacheSync =>
  }

  /** A run of the factory from its construction on. */
  ghost predicate History(states: seq<State>, calls: seq<Call>) {
    && |states| == |calls| + 1 && states[0] == INITIAL
    && forall i :: 0 <= i < |calls| ==> Step(states[i], calls[i], states[i + 1])
  }

  lemma {:induction false} EveryStateIsValid(states: seq<State>, calls: seq<Call>, i: nat)
    requires History(states, calls) && i <= |calls|
    ensures Valid(states[i])
  {
    if i > 0 {
      EveryStateIsValid(states, calls, i - 1);
      StepKeeps(states[i - 1], calls[i - 1], states[i]);
    }
  }

  lemma {:induction false} LaterStatesGrow(states: seq<State>, calls: seq<Call>, i: nat, j: nat)
    requires History(states, calls) && i <= j <= |calls|
    ensures Grows(states[i], states[j])
  {
    if i < j {
      LaterStatesGrow(states, calls, i, j - 1);
      EveryStateIsValid(states, calls, j - 1);
      StepKeeps(states[j - 1], calls[j - 1], states[j]);
    }
  }

  /** Whatever is called in whatever order: a type gets the same informer from its first request on,
      no informer is ever run twice, a started type is known, and its informer is the one that ran. */
  lemma RunsOnce(states: seq<State>, calls: seq<Call>, i: nat, j: nat, t: Type)
    requires History(states, calls) && i <= j <= |calls| && t in states[i].informers
    ensures t in states[j].informers && states[j].informers[t] == states[i].informers[t]
    ensures multiset(states[j].runs)[states[i].informers[t]] == if t in states[j].started then 1 else 0
  {
    LaterStatesGrow(states, calls, i, j);
    EveryStateIsValid(states, calls, j);
    var s, x := states[j], states[j].informers[t];
    OnceAtMost(s.runs, x);
    assert x in s.runs <==> t in s.started by {
      if u :| u in s.started && s.informers[u] == x {
        assert u == t;
      }
    }
  }

  lemma {:induction false} OnceAtMost(runs: seq<Informer>, x: Informer)
    requires forall i, j :: 0 <= i < j < |runs| ==> runs[i] != runs[j]
    ensures multiset(runs)[x] == if x in runs then 1 else 0
  {
    if runs != [] {
      var front, last := runs[..|runs| - 1], runs[|runs| - 1];
      assert runs == front + [last];
      OnceAtMost(front, x);
    }
  }

  // ---------------------------------------------------------------- the factory

  /** The types a map of flags has set. */
  function On(flags: map<Type, bool>): set<Type> { set t | t in flags && flags[t] }

  lemma SetOne(flags: map<Type, bool>, t: Type)
    ensures On(flags[t := true]) == On(flags) + {t}
  {
  }

  class Factory {
    var informers: map<Type, Informer>
    var startedInformers: map<Type, bool>
    const customResync: map<Type, int>
    const defaultResync: int
    ghost var runs: seq<Informer>
    var made: nat

    ghost function Abs(): State
      reads this
    {
      State(informers, On(startedInformers), runs, made)
    }

    constructor (customResync: map<Type, int>, defaultResync: int)
      ensures Abs() == INITIAL && this.customResync == customResync && this.defaultResync == defaultResync
    {
      this.customResync, this.defaultResync := customResync, defaultResync;
      informers, startedInformers, runs, made := map[], map[], [], 0;
    }

    /** A type is resynced at its own period, or at the default one. */
    method InformerFor(t: Type) returns (informer: Informer)
      modifies this`informers, this`made
      ensures t in customResync ==> Requested(old(Abs()), t, customResync[t], Abs())
      ensures t !in customResync ==> Requested(old(Abs()), t, defaultResync, Abs())
      ensures t in informers && informer == informers[t]
    {
      if t in informers {
        return informers[t];
      }
      var resync := defaultResync;
      if t in customResync {
        resync := customResync[t];
      }
      informer := Informer(made, resync);
      informers, made := informers[t := informer], made + 1;
    }

    method Start()
      requires Valid(Abs())
      modifies this`startedInformers, this`runs
      ensures StartedAll(old(Abs()), Abs()) && Valid(Abs())
    {
      ghost var before := Abs();
      ghost var batch: seq<Type> := [];
      var rest := informers.Keys;
      while rest != {}
        invariant rest <= informers.Keys && informers == before.informers && made == before.made
        invariant forall t :: t in batch <==> t in informers && t !in rest && t !in before.started
        invariant forall i, j :: 0 <= i < j < |batch| ==> batch[i] != batch[j]
        invariant On(startedInformers) == before.started + (informers.Keys - rest)
        invariant runs == before.runs + InformersOf(before, batch)
      {
        var t :| t in rest;
        rest := rest - {t};
        if t !in startedInformers || !startedInformers[t] {
          assert t !in On(startedInformers) && t !in batch;
          runs := runs + [informers[t]];
          SetOne(startedInformers, t);
          startedInformers := startedInformers[t := true];
          batch := batch + [t];
        } else {
          assert t in On(startedInformers);
        }
      }
      assert Pending(before, batch);
      StartKeeps(before, batch, Abs());
    }

    /** Any number of other calls, each under the lock. */
    method OtherCalls()
      requires Valid(Abs())
      modifies this
      ensures Valid(Abs()) && Grows(old(Abs()), Abs())
    {
      var calls: nat := *;
      while calls > 0
        invariant Valid(Abs()) && Grows(old(Abs()), Abs())
      {
        calls := calls - 1;
        ghost var before := Abs();
        if * {
          var t: Type := *;
          var _ := InformerFor(t);
          RequestKeeps(before, t, if t in customResync then customResync[t] else defaultResync, Abs());
        } else {
          Start();
          StartedGrows(before, Abs());
        }
        GrowsOn(old(Abs()), before, Abs());
      }
    }

    /** The lock is given up before the wait: whatever others request and start meanwhile, the result has
        one entry for each type that was started when the call took its snapshot, about the informer that
        type still has. */
    method WaitForCacheSync(synced: Informer -> bool) returns (res: map<Type, bool>)
      requires Valid(Abs())
      modifies this
      ensures Valid(Abs()) && Grows(old(Abs()), Abs())
      ensures res.Keys == old(Abs()).started
      ensures forall t :: t in res ==> t in informers && res[t] == synced(informers[t])
    {
      var snapshot := map t | t in informers && t in startedInformers && startedInformers[t] :: informers[t];
      assert snapshot.Keys == Abs().started;
      res := map[];
      var rest := snapshot.Keys;
      while rest != {}
        invariant Valid(Abs()) && Grows(old(Abs()), Abs())
        invariant rest <= snapshot.Keys && res.Keys == snapshot.Keys - rest
        invariant forall t :: t in res ==> t in snapshot && res[t] == synced(snapshot[t])
      {
        ghost var before := Abs();
        OtherCalls();
        GrowsOn(old(Abs()), before, Abs());
        var t :| t in rest;
        res, rest := res[t := synced(snapshot[t])], rest - {t};
      }
    }
  }

  lemma GrowsOn(a: State, b: State, c: State)
    requires Grows(a, b) && Grows(b, c)
    ensures Grows(a, c)
  {
  }

  lemma StartedGrows(s: State, s': State)
    requires Valid(s) && StartedAll(s, s')
    ensures Grows(s, s')
  {
    var batch :| Pending(s, batch) && s' == s.(started := s.started + s.informers.Keys, runs := s.runs + InformersOf(s, batch));
    StartKeeps(s, batch, s');
  }
}
