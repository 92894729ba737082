/** The handshake never gets stuck: from every reachable state some deliveries make both endpoints
succeed, exactly if both are still kept and select alike. */
module HandshakeProgress {
  import opened Primitives
  import opened Negotiation
  import opened Handshake
  import opened HandshakePair

  function One(s: System, byA: bool): Node {
    if byA then s.a else s.b
  }

  /** Both ends choose the same algorithm, or no encryption. */
  predicate SelectAlike(s: System) {
    var choice := Select(s.a.init.algorithms, s.b.init.algorithms);
    !choice.NoCommon? && choice == Select(s.b.init.algorithms, s.a.init.algorithms)
  }

  predicate BothDone(s: System) {
    s.a.done.Some? && s.b.done.Some?
  }

  ghost predicate Finishes(suite: Suite, s: System, acts: seq<Action>)
    requires Ready(s)
  {
    Possible(suite, s, acts) && BothDone(RunFrom(suite, s, acts))
  }

  ghost predicate CanFinish(suite: Suite, s: System)
    requires Ready(s)
  {
    exists acts: seq<Action> :: Finishes(suite, s, acts)
  }

  // ---- Runs, one action at a time --------------------------------------------------------------

  lemma {:induction false} RunCons(suite: Suite, s: System, act: Action, acts: seq<Action>)
    requires Ready(s)
    ensures RunFrom(suite, s, [act] + acts) == RunFrom(suite, Step(suite, s, act), acts)
    decreases |acts|
  {
    var all := [act] + acts;
    if acts == [] {
      assert all[..0] == [] && all == [act];
    } else {
      var n := |acts| - 1;
      assert all[..|all| - 1] == [act] + acts[..n];
      RunCons(suite, s, act, acts[..n]);
    }
  }

  lemma PossibleCons(suite: Suite, s: System, act: Action, acts: seq<Action>)
    requires Ready(s) && Enabled(s, act) && Possible(suite, Step(suite, s, act), acts)
    ensures Possible(suite, s, [act] + acts)
  {
    var all := [act] + acts;
    forall i | 0 <= i < |all|
      ensures Enabled(RunFrom(suite, s, all[..i]), all[i])
    {
      if i > 0 {
        assert all[..i] == [act] + acts[..i - 1];
        RunCons(suite, s, act, acts[..i - 1]);
        assert all[i] == acts[i - 1];
      }
    }
  }

  lemma Prepend(suite: Suite, s: System, act: Action)
    requires Ready(s) && Enabled(s, act) && CanFinish(suite, Step(suite, s, act))
    ensures CanFinish(suite, s)
  {
    var acts :| Finishes(suite, Step(suite, s, act), acts);
    PossibleCons(suite, s, act, acts);
    RunCons(suite, s, act, acts);
    assert Finishes(suite, s, [act] + acts);
  }

  lemma AlreadyDone(suite: Suite, s: System)
    requires Ready(s) && BothDone(s)
    ensures CanFinish(suite, s)
  {
    assert Finishes(suite, s, []);
  }

  // ---- The four deliveries ---------------------------------------------------------------------

  /** The last message arrives. */
  lemma LastDelivery(suite: Suite, s: System, toA: bool, rnd: Random)
    requires suite.Lawful() && Inv(suite, s)
    requires var (x, y) := (One(s, toA), One(s, !toA)); x.alive && x.init.stage == StagePeng && y.done.Some? && y.peng.Some?
    ensures CanFinish(suite, s)
  {
    var (x, y) := (One(s, toA), One(s, !toA));
    var act := Arrive(toA, y.peng.value, rnd);
    PengTaken(suite, x, y, y.peng.value, rnd);
    assert Enabled(s, act) && BothDone(Step(suite, s, act));
    AlreadyDone(suite, Step(suite, s, act));
    Prepend(suite, s, act);
  }

  /** The answer arrives, then the last message. */
  lemma AnswerDelivery(suite: Suite, s: System, toA: bool, rnd: Random)
    requires suite.Lawful() && Inv(suite, s) && SelectAlike(s)
    requires var (x, y) := (One(s, toA), One(s, !toA));
             x.alive && x.init.stage == StagePong && y.alive && y.init.stage == StagePeng
    ensures CanFinish(suite, s)
  {
    var (x, y) := (One(s, toA), One(s, !toA));
    var act := Arrive(toA, y.pong.value.1, rnd);
    PongTaken(suite, x, y, y.pong.value.1, rnd);
    assert Enabled(s, act);
    StepInv(suite, s, act);
    LastDelivery(suite, Step(suite, s, act), !toA, rnd);
    Prepend(suite, s, act);
  }

  /** What a ping makes of an endpoint that takes it. */
  lemma PingTaken(suite: Suite, x: Node, y: Node, m: Msg, rnd: Random)
    requires Settings(x, y) && Half(suite, x, y) && Half(suite, y, x) && x.alive
    requires y.ping.Some? && m == y.ping.value.1
    requires x.init.stage == StagePing || (x.init.stage == StagePong && m.hash > x.init.hash)
    requires !Select(x.init.algorithms, y.init.algorithms).NoCommon?
    ensures var x' := Arrives(suite, x, m, rnd).0;
            x'.alive && x'.init.stage == StagePeng && x'.init.algorithms == x.init.algorithms
  {
    var s := x.init.(stage := StagePing, last := None, secret := if x.init.stage == StagePing then x.init.secret else None,
                     failedRetries := 0);
    PingAnswered(suite, s, m, rnd);
    assert Handle(suite, x.init, m, rnd) == AcceptPing(suite, s, m, rnd);
  }

  /** The first message arrives, then the other two. */
  lemma FirstDelivery(suite: Suite, s: System, toA: bool, rnd: Random)
    requires suite.Lawful() && Inv(suite, s) && SelectAlike(s)
    requires var (x, y) := (One(s, toA), One(s, !toA));
             && x.alive && y.alive && y.init.stage == StagePong
             && (x.init.stage == StagePing || (x.init.stage == StagePong && y.init.hash > x.init.hash))
    ensures CanFinish(suite, s)
  {
    var (x, y) := (One(s, toA), One(s, !toA));
    var act := Arrive(toA, y.ping.value.1, rnd);
    PingTaken(suite, x, y, y.ping.value.1, rnd);
    assert Enabled(s, act);
    StepInv(suite, s, act);
    AnswerDelivery(suite, Step(suite, s, act), !toA, rnd);
    Prepend(suite, s, act);
  }

  lemma Opening(suite: Suite, s: System, byA: bool, secret: PrivateKey, rnd: Random)
    requires suite.Lawful() && Inv(suite, s) && SelectAlike(s)
    requires s.a.alive && s.b.alive && s.a.init.stage == StagePing && s.b.init.stage == StagePing
    ensures CanFinish(suite, s)
  {
    var act := Initiate(byA, secret);
    StepInv(suite, s, act);
    FirstDelivery(suite, Step(suite, s, act), !byA, rnd);
    Prepend(suite, s, act);
  }

  // ---- Every reachable state -------------------------------------------------------------------

  /** Where two kept endpoints can be. */
  lemma Positions(suite: Suite, x: Node, y: Node, net: set<Msg>)
    requires Both(suite, x, y, net) && x.alive && y.alive
    ensures x.done.Some? && y.done.None? ==> x.peng.Some? && y.init.stage == StagePeng
    ensures x.init.stage == StagePeng && y.done.None? ==> y.init.stage == StagePong
  {
  }

  lemma Finishable(suite: Suite, s: System, secret: PrivateKey, rnd: Random)
    requires suite.Lawful() && Inv(suite, s) && SelectAlike(s) && s.a.alive && s.b.alive
    ensures CanFinish(suite, s)
  {
    Positions(suite, s.a, s.b, s.net);
    Positions(suite, s.b, s.a, s.net);
    if s.a.done.Some? && s.b.done.Some? {
      AlreadyDone(suite, s);
    } else if s.a.done.Some? || s.b.done.Some? {
      LastDelivery(suite, s, s.b.done.Some?, rnd);
    } else if s.a.init.stage == StagePeng || s.b.init.stage == StagePeng {
      AnswerDelivery(suite, s, s.b.init.stage == StagePeng, rnd);
    } else if s.a.init.stage == StagePong || s.b.init.stage == StagePong {
      FirstDelivery(suite, s, s.a.init.stage == StagePing || (s.b.init.stage == StagePong && s.b.init.hash > s.a.init.hash),
                    rnd);
    } else {
      Opening(suite, s, true, secret, rnd);
    }
  }

  /** An endpoint that was discarded stays as it is. */
  lemma {:induction false} DiscardedStays(suite: Suite, s: System, acts: seq<Action>, ofA: bool)
    requires Ready(s) && !One(s, ofA).alive
    ensures One(RunFrom(suite, s, acts), ofA) == One(s, ofA)
    decreases |acts|
  {
    if acts != [] {
      DiscardedStays(suite, s, acts[..|acts| - 1], ofA);
    }
  }

  lemma StepSettings(suite: Suite, s: System, act: Action)
    requires suite.Lawful() && Inv(suite, s) && Enabled(s, act)
    ensures var s' := Step(suite, s, act);
            s'.a.init.algorithms == s.a.init.algorithms && s'.b.init.algorithms == s.b.init.algorithms
  {
    if act.byA {
      NodeStepKept(suite, s.a, s.b, s.net, act);
    } else {
      NodeStepKept(suite, s.b, s.a, s.net, act);
    }
  }

  lemma {:induction false} SettingsStay(suite: Suite, s: System, acts: seq<Action>)
    requires suite.Lawful() && Inv(suite, s) && Possible(suite, s, acts)
    ensures var r := RunFrom(suite, s, acts);
            Inv(suite, r) && r.a.init.algorithms == s.a.init.algorithms && r.b.init.algorithms == s.b.init.algorithms
    decreases |acts|
  {
    if acts != [] {
      var n := |acts| - 1;
      PossiblePrefix(suite, s, acts, n);
      SettingsStay(suite, s, acts[..n]);
      StepInv(suite, RunFrom(suite, s, acts[..n]), acts[n]);
      StepSettings(suite, RunFrom(suite, s, acts[..n]), acts[n]);
    }
  }

  lemma DoneAlike(suite: Suite, s: System)
    requires Inv(suite, s) && BothDone(s)
    ensures SelectAlike(s) && s.a.alive && s.b.alive
  {
  }

  /** From every reachable state both endpoints can still succeed exactly if neither has been
      discarded and they select alike. */
  lemma HandshakeProgress(suite: Suite, s: System, acts: seq<Action>, secret: PrivateKey, rnd: Random)
    requires suite.Lawful() && Initial(s) && Possible(suite, s, acts)
    ensures var r := RunFrom(suite, s, acts);
            CanFinish(suite, r) <==> r.a.alive && r.b.alive && SelectAlike(r)
  {
    RunInv(suite, s, acts);
    var r := RunFrom(suite, s, acts);
    if r.a.alive && r.b.alive && SelectAlike(r) {
      Finishable(suite, r, secret, rnd);
    }
    if CanFinish(suite, r) {
      var more :| Finishes(suite, r, more);
      SettingsStay(suite, r, more);
      DoneAlike(suite, RunFrom(suite, r, more));
      if !r.a.alive {
        DiscardedStays(suite, r, more, true);
      }
      if !r.b.alive {
        DiscardedStays(suite, r, more, false);
      }
    }
  }
}
