/**
 * The challenge responder: a stateless loop that answers every challenge on
 * the broadcast stream with the same nonce. The broadcast stream is a
 * sequence read through a cursor; running off its end means the stream is
 * closed. The sink is the sequence of messages it accepted, and its receiver
 * goes away after `sinkAccepts` messages.
 */
module ChallengeHandler {
  import opened Wrappers
  import opened Types

  /** The response to a challenge echoes its nonce unchanged. */
  function HandleChallenge(challenge: u64): (r: OutgoingMessage)
    ensures r.ChallengeResponse? && r.nonce == challenge
  {
    ChallengeResponse(challenge)
  }

  /** The index of the first challenge at or after `cursor`, if any; everything before it is an action request. */
  function NextChallenge(events: seq<IncomingMessage>, cursor: nat): (r: Option<nat>)
    requires cursor <= |events|
    ensures r.Some? ==> cursor <= r.value < |events| && events[r.value].Challenge?
    ensures forall j :: cursor <= j < (if r.Some? then r.value else |events|) ==> events[j].ActionRequest?
    decreases |events| - cursor
  {
    if cursor == |events| then None
    else if events[cursor].Challenge? then Some(cursor)
    else NextChallenge(events, cursor + 1)
  }

  /** The nonces of the challenges in `events[cursor..]`, in stream order. */
  function Challenges(events: seq<IncomingMessage>, cursor: nat): seq<u64>
    requires cursor <= |events|
    decreases |events| - cursor
  {
    if cursor == |events| then []
    else if events[cursor].Challenge? then [events[cursor].nonce] + Challenges(events, cursor + 1)
    else Challenges(events, cursor + 1)
  }

  /** Finding the next challenge splits the remaining challenges into that one and those after it. */
  lemma {:induction false} NextChallengeSplits(events: seq<IncomingMessage>, cursor: nat)
    requires cursor <= |events|
    ensures NextChallenge(events, cursor).None? ==> Challenges(events, cursor) == []
    ensures NextChallenge(events, cursor).Some? ==>
      var i := NextChallenge(events, cursor).value;
      Challenges(events, cursor) == [events[i].nonce] + Challenges(events, i + 1)
    decreases |events| - cursor
  {
    if cursor < |events| && events[cursor].ActionRequest? {
      NextChallengeSplits(events, cursor + 1);
    }
  }

  /**
   * The responder keeps no state between events: the challenges of a stream
   * read in two parts are those of the first part followed by those of the second.
   */
  lemma {:induction false} ChallengesOfConcat(first: seq<IncomingMessage>, second: seq<IncomingMessage>, cursor: nat)
    requires cursor <= |first|
    ensures Challenges(first + second, cursor) == Challenges(first, cursor) + Challenges(second, 0)
    decreases |first| - cursor
  {
    if cursor == |first| {
      ChallengesFromStart(first, second, 0);
    } else {
      ChallengesOfConcat(first, second, cursor + 1);
      assert (first + second)[cursor] == first[cursor];
      if first[cursor].Challenge? {
        assert [first[cursor].nonce] + (Challenges(first, cursor + 1) + Challenges(second, 0))
            == ([first[cursor].nonce] + Challenges(first, cursor + 1)) + Challenges(second, 0);
      }
    }
  }

  /** Past a prefix, the challenges of a stream are those of its remainder. */
  lemma {:induction false} ChallengesFromStart(first: seq<IncomingMessage>, second: seq<IncomingMessage>, cursor: nat)
    requires cursor <= |second|
    ensures Challenges(first + second, |first| + cursor) == Challenges(second, cursor)
    decreases |second| - cursor
  {
    if cursor < |second| {
      ChallengesFromStart(first, second, cursor + 1);
      assert (first + second)[|first| + cursor] == second[cursor];
    }
  }

  /**
   * Reads the broadcast stream from `cursor` until a challenge arrives and
   * returns its nonce and the advanced cursor; every event skipped is an
   * action request. Fails when the stream closes first.
   */
  method UntilChallengeEvent(events: seq<IncomingMessage>, cursor: nat) returns (r: Result<u64, Error>, next: nat)
    requires cursor <= |events|
    ensures cursor <= next <= |events|
    ensures r.Ok? ==> cursor < next && events[next - 1] == Challenge(r.value)
    ensures r.Err? ==> r.error == NoSenderRegistered && next == |events|
    ensures forall j :: cursor <= j < (if r.Ok? then next - 1 else next) ==> events[j] == IncomingMessage.ActionRequest
    ensures NextChallenge(events, cursor) == if r.Ok? then Some(next - 1) else None
  {
    next := cursor;
    while next < |events|
      invariant cursor <= next <= |events|
      invariant forall j :: cursor <= j < next ==> events[j] == IncomingMessage.ActionRequest
      invariant NextChallenge(events, cursor) == NextChallenge(events, next)
    {
      var message := events[next];
      next := next + 1;
      if message.Challenge? {
        return Ok(message.nonce), next;
      }
    }
    return Err(NoSenderRegistered), next;
  }

  /**
   * The responder loop. It never returns `Ok`: the sink holds the responses to
   * the stream's challenges in stream order, one per challenge, and the loop
   * stops with `NoSenderRegistered` when the stream closes, or with
   * `NoHandlerRegistered` carrying the refused response when the sink is gone.
   */
  method RunUntilError(sinkAccepts: nat, events: seq<IncomingMessage>) returns (sent: seq<OutgoingMessage>, r: Result<(), Error>)
    ensures r.Err?
    ensures var challenges := Challenges(events, 0);
      |sent| == (if |challenges| <= sinkAccepts then |challenges| else sinkAccepts) &&
      (forall j :: 0 <= j < |sent| ==> sent[j] == ChallengeResponse(challenges[j])) &&
      r.error == if |challenges| <= sinkAccepts then NoSenderRegistered
                 else NoHandlerRegistered(ChallengeResponse(challenges[sinkAccepts]))
  {
    ghost var challenges := Challenges(events, 0);
    ghost var answered: seq<u64> := [];
    sent := [];
    var cursor := 0;
    while true
      invariant cursor <= |events| && |sent| == |answered| <= sinkAccepts
      invariant challenges == answered + Challenges(events, cursor)
      invariant forall j :: 0 <= j < |sent| ==> sent[j] == ChallengeResponse(answered[j])
      decreases |events| - cursor
    {
      NextChallengeSplits(events, cursor);
      var challenge, next := UntilChallengeEvent(events, cursor);
      if challenge.Err? {
        assert challenges == answered;
        return sent, Err(challenge.error);
      }
      assert challenges == (answered + [challenge.value]) + Challenges(events, next);
      cursor := next;
      var response := HandleChallenge(challenge.value);
      if |sent| == sinkAccepts {
        return sent, Err(NoHandlerRegistered(response));
      }
      sent := sent + [response];
      answered := answered + [challenge.value];
    }
  }
}
