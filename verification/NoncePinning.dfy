/** What the sliding nonce pinning of one key means over a whole run, in terms of the history of
accepted nonces alone. */
module NoncePinning {
  import opened Primitives
  import opened CoreState

  /** A second passes, or a frame arrives. `body` is authentic or not as the primitive decides. */
  datatype Event = Second | Arrival(nonce: nat, body: Bytes)

  function Step(aead: Aead, s: Slot, e: Event): Slot {
    match e
    case Second => TickSlot(s)
    case Arrival(nonce, body) => Receive(aead, s, nonce, body).0
  }

  function Run(aead: Aead, s: Slot, events: seq<Event>): Slot
    decreases |events|
  {
    if events == [] then s
    else Step(aead, Run(aead, s, events[..|events| - 1]), events[|events| - 1])
  }

  /** Whether event `i` of a run is an accepted frame. */
  ghost predicate Accepted(aead: Aead, s: Slot, events: seq<Event>, i: nat)
    requires i < |events|
  {
    events[i].Arrival? && Receive(aead, Run(aead, s, events[..i]), events[i].nonce, events[i].body).1.Ok?
  }

  function Seconds(events: seq<Event>): nat
    decreases |events|
  {
    if events == [] then 0
    else Seconds(events[..|events| - 1]) + if events[|events| - 1].Second? then 1 else 0
  }

  /** The events before the last second, or all of them when no second has passed. */
  function BeforeLastSecond(events: seq<Event>): (r: seq<Event>)
    ensures r <= events
    ensures Seconds(events) > 0 ==> |r| < |events| && Seconds(r) + 1 == Seconds(events)
    decreases |events|
  {
    if events == [] || events[|events| - 1].Second? then
      if events == [] then events else events[..|events| - 1]
    else
      var r := BeforeLastSecond(events[..|events| - 1]);
      if Seconds(events) == 0 then events else r
  }

  /** `m` is the largest nonce accepted during the events, or 0 when there is none. */
  ghost predicate LargestAccepted(aead: Aead, s: Slot, events: seq<Event>, m: nat) {
    && (forall i | 0 <= i < |events| && Accepted(aead, s, events, i) :: events[i].nonce <= m)
    && (m == 0 || exists i | 0 <= i < |events| :: Accepted(aead, s, events, i) && events[i].nonce == m)
  }

  /** Every nonce that can arrive has the form the receiver deduces, so it is below the last nonce. */
  ghost predicate Deducible(events: seq<Event>) {
    forall i | 0 <= i < |events| && events[i].Arrival? :: events[i].nonce < HALF + WIRE
  }

  lemma AcceptedPrefix(aead: Aead, s: Slot, events: seq<Event>, n: nat, i: nat)
    requires i < n <= |events|
    ensures Accepted(aead, s, events[..n], i) <==> Accepted(aead, s, events, i)
  {
    assert events[..n][..i] == events[..i];
  }

  /** The recorded nonce is the largest accepted one. */
  lemma {:induction false} SeenIsLargest(aead: Aead, s: Slot, events: seq<Event>)
    requires s.seen == 0
    ensures LargestAccepted(aead, s, events, Run(aead, s, events).seen)
    decreases |events|
  {
    if events != [] {
      var n := |events| - 1;
      SeenIsLargest(aead, s, events[..n]);
      forall i | 0 <= i < n
        ensures Accepted(aead, s, events[..n], i) <==> Accepted(aead, s, events, i)
      {
        AcceptedPrefix(aead, s, events, n, i);
      }
      var before := Run(aead, s, events[..n]);
      var m := Run(aead, s, events).seen;
      if m == before.seen {
        if m != 0 {
          var i :| 0 <= i < n && Accepted(aead, s, events[..n], i) && events[..n][i].nonce == m;
          assert Accepted(aead, s, events, i) && events[i].nonce == m;
        }
      } else {
        assert Accepted(aead, s, events, n) && events[n].nonce == m;
      }
    }
  }

  lemma {:induction false} SeenBounded(aead: Aead, s: Slot, events: seq<Event>)
    requires s.seen == 0 && Deducible(events)
    ensures Run(aead, s, events).seen < HALF + WIRE
    decreases |events|
  {
    if events != [] {
      SeenBounded(aead, s, events[..|events| - 1]);
    }
  }

  /** The next minimum was taken at the last second, from the nonces accepted before it; the
      increment never wraps around. */
  lemma {:induction false} NextMinimum(aead: Aead, s: Slot, events: seq<Event>)
    requires s.min == 0 && s.nextMin == 0 && s.seen == 0 && Deducible(events)
    ensures Run(aead, s, events).nextMin
         == if Seconds(events) == 0 then 0 else Run(aead, s, BeforeLastSecond(events)).seen + 1
    decreases |events|
  {
    if events != [] {
      var n := |events| - 1;
      NextMinimum(aead, s, events[..n]);
      SeenBounded(aead, s, events[..n]);
      StepNextMinimum(aead, Run(aead, s, events[..n]), events[n]);
    }
  }

  lemma StepNextMinimum(aead: Aead, s: Slot, e: Event)
    requires s.seen < HALF + WIRE
    ensures Step(aead, s, e).nextMin == if e.Second? then s.seen + 1 else s.nextMin
  {
  }

  lemma {:induction false} Minimum(aead: Aead, s: Slot, events: seq<Event>)
    requires s.min == 0 && s.nextMin == 0 && s.seen == 0 && Deducible(events)
    ensures Run(aead, s, events).min
         == if Seconds(events) < 2 then 0
            else Run(aead, s, BeforeLastSecond(BeforeLastSecond(events))).seen + 1
    decreases |events|
  {
    if events != [] {
      var n := |events| - 1;
      Minimum(aead, s, events[..n]);
      NextMinimum(aead, s, events[..n]);
    }
  }

  /** The pinned minimum after a whole run: nothing for the first two seconds, afterwards one more
      than the largest nonce accepted before the last second but one. */
  lemma MinimumIsHistory(aead: Aead, s: Slot, events: seq<Event>)
    requires s.min == 0 && s.nextMin == 0 && s.seen == 0 && Deducible(events)
    ensures Seconds(events) < 2 ==> Run(aead, s, events).min == 0
    ensures Seconds(events) >= 2 ==>
              && Run(aead, s, events).min >= 1
              && LargestAccepted(aead, s, BeforeLastSecond(BeforeLastSecond(events)), Run(aead, s, events).min - 1)
  {
    Minimum(aead, s, events);
    SeenIsLargest(aead, s, BeforeLastSecond(BeforeLastSecond(events)));
  }

  lemma {:induction false} SecondsSplit(events: seq<Event>, i: nat)
    requires i <= |events|
    ensures Seconds(events) == Seconds(events[..i]) + Seconds(events[i..])
    decreases |events|
  {
    if i < |events| {
      SecondsSplit(events[..|events| - 1], i);
      assert events[..|events| - 1][..i] == events[..i];
      assert events[..|events| - 1][i..] == events[i..][..|events[i..]| - 1];
    } else {
      assert events[..i] == events;
    }
  }

  /** Two seconds after an accepted frame, the part of the run before the last second but one
      already contains that frame. */
  lemma {:induction false} TwoSecondsCover(events: seq<Event>, i: nat)
    requires i < |events|
    requires Seconds(events[i + 1..]) >= 1
    ensures Seconds(events) > 0 && i < |BeforeLastSecond(events)|
    ensures Seconds(BeforeLastSecond(events)[i + 1..]) + 1 == Seconds(events[i + 1..])
    decreases |events|
  {
    SecondsSplit(events, i + 1);
    var r := BeforeLastSecond(events);
    if events[|events| - 1].Second? {
      assert r[i + 1..] == events[i + 1..][..|events[i + 1..]| - 1];
    } else {
      assert events[..|events| - 1][i + 1..] == events[i + 1..][..|events[i + 1..]| - 1];
      TwoSecondsCover(events[..|events| - 1], i);
    }
  }

  /** Replay protection for ever: a nonce accepted once is refused at every point of the run that
      lies two or more seconds later. */
  lemma ReplayRejected(aead: Aead, s: Slot, events: seq<Event>, i: nat, body: Bytes)
    requires s.min == 0 && s.nextMin == 0 && s.seen == 0 && Deducible(events)
    requires i < |events| && Accepted(aead, s, events, i)
    requires Seconds(events[i + 1..]) >= 2
    ensures Receive(aead, Run(aead, s, events), events[i].nonce, body).1 == Err(OldNonce)
  {
    var r := BeforeLastSecond(events);
    var rr := BeforeLastSecond(r);
    TwoSecondsCover(events, i);
    TwoSecondsCover(r, i);
    SecondsSplit(events, i + 1);
    assert rr == events[..|rr|];
    AcceptedPrefix(aead, s, events, |rr|, i);
    MinimumIsHistory(aead, s, events);
  }

  /** A nonce above every accepted one is never refused as old. */
  lemma NewNonceNotOld(aead: Aead, s: Slot, events: seq<Event>, nonce: nat, body: Bytes)
    requires s.min == 0 && s.nextMin == 0 && s.seen == 0 && Deducible(events)
    requires forall i | 0 <= i < |events| && Accepted(aead, s, events, i) :: events[i].nonce < nonce
    requires nonce > 0
    ensures Receive(aead, Run(aead, s, events), nonce, body).1 != Err(OldNonce)
  {
    MinimumIsHistory(aead, s, events);
    if Seconds(events) >= 2 {
      var rr := BeforeLastSecond(BeforeLastSecond(events));
      var m := Run(aead, s, events).min - 1;
      if m != 0 {
        var i :| 0 <= i < |rr| && Accepted(aead, s, rr, i) && rr[i].nonce == m;
        assert rr == events[..|rr|];
        AcceptedPrefix(aead, s, events, |rr|, i);
      }
    }
  }
}
