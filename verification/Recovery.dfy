/** The rotation never gets stuck: whatever was lost, four undisturbed steps make progress. */
module Recovery {
  import opened Primitives
  import opened SessionPair

  /** The endpoint that spoke last lets two intervals pass, after which it has repeated its message;
      that message arrives, and the other endpoint takes its turn. */
  function Plan(dh: Dh, s: System, hiIsA: bool, secret: PrivateKey, start: nat): seq<Action>
    requires (if hiIsA then s.a else s.b).rot.proposed.Some?
  {
    var hi := if hiIsA then s.a else s.b;
    [Rotate(hiIsA, secret, start), Rotate(hiIsA, secret, start),
     Deliver(!hiIsA, Last(dh, hi.rot), secret, start), Rotate(!hiIsA, secret, start)]
  }

  /** Two intervals of the endpoint that spoke last change nothing but the network. */
  lemma Repeats(dh: Dh, hi: Side, lo: Side, sent: set<Message>, secret: PrivateKey, start: nat)
    requires Oriented(dh, hi, lo, sent) && hi.core.Valid()
    ensures var (hi1, _) := Turn(dh, hi, secret, start);
            && hi1.core.Valid()
            && var (hi2, out) := Turn(dh, hi1, secret, start);
               && hi2 == hi.(rot := hi.rot.(timeout := true))
               && out == {Last(dh, hi.rot)}
  {
  }

  /** The other endpoint, after the message and its turn, has installed one more key and spoken. */
  lemma Answers(dh: Dh, hi: Side, lo: Side, sent: set<Message>, secret: PrivateKey, start: nat)
    requires Oriented(dh, hi, lo, sent) && lo.core.Valid()
    ensures var lo1 := Receive(dh, lo, Last(dh, hi.rot), secret, start);
            && lo1.core.Valid()
            && var lo2 := Turn(dh, lo1, secret, start).0;
               && lo2.rot.messageId == hi.rot.messageId + 1
               && |lo2.log| == hi.rot.messageId && lo2.log[|lo2.log| - 1].id == hi.rot.messageId + 1
  {
  }

  function Hi(s: System, hiIsA: bool): Side {
    if hiIsA then s.a else s.b
  }

  function Lo(s: System, hiIsA: bool): Side {
    if hiIsA then s.b else s.a
  }

  /** One more possible action makes one more step. */
  lemma Extend(dh: Dh, aead: Aead, s: System, acts: seq<Action>, act: Action)
    requires Ready(s) && Possible(dh, aead, s, acts) && Enabled(dh, RunFrom(dh, aead, s, acts), act)
    ensures Possible(dh, aead, s, acts + [act])
    ensures RunFrom(dh, aead, s, acts + [act]) == Step(dh, aead, RunFrom(dh, aead, s, acts), act)
  {
    var all := acts + [act];
    assert all[..|acts|] == acts;
    forall i | 0 <= i < |all|
      ensures Enabled(dh, RunFrom(dh, aead, s, all[..i]), all[i])
    {
      assert i < |acts| ==> all[..i] == acts[..i] && all[i] == acts[i];
    }
  }

  /** A turn of one side. */
  lemma TurnStep(dh: Dh, aead: Aead, s: System, byA: bool, secret: PrivateKey, start: nat)
    requires Ready(s)
    ensures var r := Step(dh, aead, s, Rotate(byA, secret, start));
            var (side, out) := Turn(dh, Hi(s, byA), secret, start);
            Hi(r, byA) == side && Lo(r, byA) == Lo(s, byA) && r.sent == s.sent + out && r.derived == s.derived
  {
  }

  lemma DeliverStep(dh: Dh, aead: Aead, s: System, byA: bool, m: Message, secret: PrivateKey, start: nat)
    requires Ready(s)
    ensures var r := Step(dh, aead, s, Deliver(byA, m, secret, start));
            Hi(r, byA) == Receive(dh, Hi(s, byA), m, secret, start) && Lo(r, byA) == Lo(s, byA)
  {
  }

  lemma Waits(dh: Dh, aead: Aead, r: System, hiIsA: bool, secret: PrivateKey, start: nat)
    requires Ready(r) && start < START && Oriented(dh, Hi(r, hiIsA), Lo(r, hiIsA), r.sent)
    ensures var turn := Rotate(hiIsA, secret, start);
            var s2 := RunFrom(dh, aead, r, [turn, turn]);
            && Possible(dh, aead, r, [turn, turn])
            && Lo(s2, hiIsA) == Lo(r, hiIsA) && Last(dh, Hi(r, hiIsA).rot) in s2.sent && s2.derived == r.derived
  {
    var turn := Rotate(hiIsA, secret, start);
    Extend(dh, aead, r, [], turn);
    assert [] + [turn] == [turn] && [turn] + [turn] == [turn, turn];
    Extend(dh, aead, r, [turn], turn);
    TurnStep(dh, aead, r, hiIsA, secret, start);
    TurnStep(dh, aead, Step(dh, aead, r, turn), hiIsA, secret, start);
    Repeats(dh, Hi(r, hiIsA), Lo(r, hiIsA), r.sent, secret, start);
  }

  /** The plan is possible, and the endpoint that had to answer has installed the next key. */
  ghost predicate Progresses(dh: Dh, aead: Aead, r: System, hiIsA: bool, secret: PrivateKey, start: nat)
    requires Ready(r) && Hi(r, hiIsA).rot.proposed.Some?
  {
    var plan := Plan(dh, r, hiIsA, secret, start);
    var id := Hi(r, hiIsA).rot.messageId;
    var lo := Lo(RunFrom(dh, aead, r, plan), hiIsA);
    && Possible(dh, aead, r, plan)
    && lo.rot.messageId == id + 1 && |lo.log| == id && id > 0 && lo.log[id - 1].id == id + 1
  }

  /** The plan is possible; its last two actions follow the waiting. */
  lemma PlanPossible(dh: Dh, aead: Aead, r: System, hiIsA: bool, secret: PrivateKey, start: nat)
    requires Ready(r) && start < START && Oriented(dh, Hi(r, hiIsA), Lo(r, hiIsA), r.sent)
    requires dh.agree(secret, dh.pub(Hi(r, hiIsA).rot.proposed.value)) !in r.derived
    ensures var turn, m := Rotate(hiIsA, secret, start), Last(dh, Hi(r, hiIsA).rot);
            var plan, s2 := Plan(dh, r, hiIsA, secret, start), RunFrom(dh, aead, r, [turn, turn]);
            && Possible(dh, aead, r, plan) && Lo(s2, hiIsA) == Lo(r, hiIsA)
            && RunFrom(dh, aead, r, plan)
               == Step(dh, aead, Step(dh, aead, s2, Deliver(!hiIsA, m, secret, start)), Rotate(!hiIsA, secret, start))
  {
    var turn, m := Rotate(hiIsA, secret, start), Last(dh, Hi(r, hiIsA).rot);
    var deliver, answer := Deliver(!hiIsA, m, secret, start), Rotate(!hiIsA, secret, start);
    Waits(dh, aead, r, hiIsA, secret, start);
    Extend(dh, aead, r, [turn, turn], deliver);
    assert [turn, turn] + [deliver] == [turn, turn, deliver];
    Extend(dh, aead, r, [turn, turn, deliver], answer);
    assert [turn, turn, deliver] + [answer] == Plan(dh, r, hiIsA, secret, start);
  }

  lemma PlanWorks(dh: Dh, aead: Aead, r: System, hiIsA: bool, secret: PrivateKey, start: nat)
    requires Ready(r) && start < START && Oriented(dh, Hi(r, hiIsA), Lo(r, hiIsA), r.sent)
    requires dh.agree(secret, dh.pub(Hi(r, hiIsA).rot.proposed.value)) !in r.derived
    ensures Progresses(dh, aead, r, hiIsA, secret, start)
  {
    PlanPossible(dh, aead, r, hiIsA, secret, start);
    var turn := Rotate(hiIsA, secret, start);
    Replies(dh, aead, RunFrom(dh, aead, r, [turn, turn]), hiIsA, Hi(r, hiIsA), r.sent, secret, start);
  }

  /** The message arrives at the endpoint that has to answer, and that endpoint takes its turn. */
  lemma Replies(dh: Dh, aead: Aead, s: System, hiIsA: bool, hi: Side, sent: set<Message>, secret: PrivateKey, start: nat)
    requires Ready(s) && Oriented(dh, hi, Lo(s, hiIsA), sent)
    ensures var s1 := Step(dh, aead, s, Deliver(!hiIsA, Last(dh, hi.rot), secret, start));
            var lo := Lo(Step(dh, aead, s1, Rotate(!hiIsA, secret, start)), hiIsA);
            var id := hi.rot.messageId;
            lo.rot.messageId == id + 1 && |lo.log| == id && id > 0 && lo.log[id - 1].id == id + 1
  {
    var m := Last(dh, hi.rot);
    DeliverStep(dh, aead, s, !hiIsA, m, secret, start);
    TurnStep(dh, aead, Step(dh, aead, s, Deliver(!hiIsA, m, secret, start)), !hiIsA, secret, start);
    Answers(dh, hi, Lo(s, hiIsA), sent, secret, start);
  }

  /** In every reachable state one endpoint spoke last, and from there the plan makes progress,
      whatever messages were lost before. */
  lemma Recovers(dh: Dh, aead: Aead, s: System, acts: seq<Action>, master: Key, secret: PrivateKey, start: nat)
    returns (hiIsA: bool)
    requires dh.Lawful() && Initial(dh, s, master) && Possible(dh, aead, s, acts) && start < START
    ensures var r := RunFrom(dh, aead, s, acts);
            && Hi(r, hiIsA).rot.proposed.Some? && Hi(r, hiIsA).rot.messageId == Lo(r, hiIsA).rot.messageId + 1
            && (dh.agree(secret, dh.pub(Hi(r, hiIsA).rot.proposed.value)) !in r.derived ==>
                  Progresses(dh, aead, r, hiIsA, secret, start))
  {
    RunInv(dh, aead, s, acts, master);
    var r := RunFrom(dh, aead, s, acts);
    hiIsA := Oriented(dh, r.a, r.b, r.sent);
    if dh.agree(secret, dh.pub(Hi(r, hiIsA).rot.proposed.value)) !in r.derived {
      PlanWorks(dh, aead, r, hiIsA, secret, start);
    }
  }
}
