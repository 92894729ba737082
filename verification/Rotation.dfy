/** The turn based key rotation of one endpoint (`RotationState`).

`State` and the three step functions are the values the class is specified by; the run of two
endpoints over a lossy network is in `SessionPair`. */
module Rotation {
  import opened Primitives

  datatype Message = Message(id: nat, propose: PublicKey, confirm: Option<PublicKey>)

  datatype RotatedKey = RotatedKey(key: Key, id: nat, useForSending: bool)

  datatype State = State(
    confirmed: Option<(PublicKey, nat)>,
    pending: Option<(Key, PublicKey)>,
    proposed: Option<PrivateKey>,
    messageId: nat,
    timeout: bool)

  /** The state and first message of a new endpoint. Only the initiator speaks. */
  function Start(dh: Dh, initiator: bool, secret: PrivateKey): (r: (State, Option<Message>)) {
    if initiator then
      (State(None, None, Some(secret), 1, false), Some(Message(1, dh.pub(secret), None)))
    else
      (State(None, None, None, 0, false), None)
  }

  /** Reception of a message; `secret` is the private key created for the answer. */
  function Process(dh: Dh, s: State, m: Message, secret: PrivateKey): (r: (State, Option<RotatedKey>)) {
    if m.id <= s.messageId then
      (s, None)
    else
      var s1 := s.(timeout := false, pending := Some((dh.agree(secret, m.propose), dh.pub(secret))));
      if m.confirm.Some? && s.proposed.Some? then
        (s1.(proposed := None), Some(RotatedKey(dh.agree(s.proposed.value, m.confirm.value), m.id, true)))
      else
        (s1, None)
  }

  /** One rotation interval: retransmit, propose or wait. */
  function Cycle(dh: Dh, s: State, secret: PrivateKey): (r: (State, Option<RotatedKey>, Option<Message>)) {
    if s.proposed.Some? then
      if s.timeout then
        var propose := dh.pub(s.proposed.value);
        match s.confirmed
        case Some((key, id)) => (s, None, Some(Message(id, propose, Some(key))))
        case None => (s, None, Some(Message(1, propose, None)))
      else
        (s.(timeout := true), None, None)
    else
      match s.pending
      case Some((key, confirm)) =>
        var id := s.messageId + 2;
        (State(Some((confirm, id)), None, Some(secret), id, s.timeout),
         Some(RotatedKey(key, id, false)),
         Some(Message(id, dh.pub(secret), Some(confirm))))
      case None => (s, None, None)
  }

  /** The endpoint as the program keeps it: five fields updated or taken in place. The output
      buffer of the program is the returned message. */
  class RotationState {
    var confirmed: Option<(PublicKey, nat)>
    var pending: Option<(Key, PublicKey)>
    var proposed: Option<PrivateKey>
    var messageId: nat
    var timeout: bool

    function View(): State
      reads this
    {
      State(confirmed, pending, proposed, messageId, timeout)
    }

    constructor (proposed: Option<PrivateKey>, messageId: nat)
      ensures View() == State(None, None, proposed, messageId, false)
    {
      this.confirmed, this.pending, this.timeout := None, None, false;
      this.proposed, this.messageId := proposed, messageId;
    }

    static method New(dh: Dh, initiator: bool, secret: PrivateKey)
      returns (state: RotationState, out: Option<Message>)
      ensures fresh(state)
      ensures (state.View(), out) == Start(dh, initiator, secret)
    {
      if initiator {
        out := Some(Message(1, dh.pub(secret), None));
        state := new RotationState(Some(secret), 1);
      } else {
        out := None;
        state := new RotationState(None, 0);
      }
    }

    method ProcessMessage(dh: Dh, m: Message, secret: PrivateKey) returns (rotated: Option<RotatedKey>)
      modifies this
      ensures (View(), rotated) == Process(dh, old(View()), m, secret)
    {
      if m.id <= messageId {
        return None;
      }
      timeout := false;
      pending := Some((dh.agree(secret, m.propose), dh.pub(secret)));
      if m.confirm.Some? {
        if proposed.Some? {
          var privateKey := proposed.value;
          proposed := None;
          return Some(RotatedKey(dh.agree(privateKey, m.confirm.value), m.id, true));
        }
      }
      return None;
    }

    method RunCycle(dh: Dh, secret: PrivateKey) returns (rotated: Option<RotatedKey>, out: Option<Message>)
      modifies this
      ensures (View(), rotated, out) == Cycle(dh, old(View()), secret)
    {
      rotated, out := None, None;
      if proposed.Some? {
        if timeout {
          if confirmed.Some? {
            out := Some(Message(confirmed.value.1, dh.pub(proposed.value), Some(confirmed.value.0)));
          } else {
            out := Some(Message(1, dh.pub(proposed.value), None));
          }
        } else {
          timeout := true;
        }
      } else if pending.Some? {
        var (key, confirmKey) := pending.value;
        pending := None;
        messageId := messageId + 2;
        proposed := Some(secret);
        confirmed := Some((confirmKey, messageId));
        out := Some(Message(messageId, dh.pub(secret), Some(confirmKey)));
        rotated := Some(RotatedKey(key, messageId, false));
      }
    }
  }
}
