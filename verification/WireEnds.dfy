/** How provider streams end on the Responses wire. */
module WireEnds {
  import opened NeutralEvents
  import opened ResponsesWire
  import opened ResponsesStream
  import D = DeepSeek
  import M = DeepSeekMessages
  import A = Anthropic
  import P = AnthropicResponse

  /** The last wire event completes the response with the items of some parts. */
  ghost predicate EndsWith(wires: seq<Wire>, output: seq<Part>) {
    wires != [] && wires[|wires| - 1].ResponseCompleted? && AreItemsOf(wires[|wires| - 1].items, output)
  }

  lemma CompletedEnds(events: seq<Event>, output: seq<Part>)
    ensures EndsWith(Wires(events + [Completed(output)]), output)
  {
    LastIsCompletion(events, output);
  }

  /** A DeepSeek stream with an end marker ends on the wire with a completion: its items are the parts that the messages
      before the marker carry, all of them, in the order of their arrival, each under the id of its kind and place. */
  lemma DeepSeekEndsInCompletion(messages: seq<D.Message>)
    requires exists m :: m in messages && m.DoneMarker?
    ensures EndsWith(Wires(D.Answer(messages)), M.SentOutput(messages))
    ensures forall part :: part in M.SentOutput(messages) ==> !part.Metadata?
  {
    var front := M.AnswerEnds(messages);
    CompletedEnds(front, M.SentOutput(messages));
    M.NothingHidden(messages);
  }

  /** An orderly Anthropic stream ends on the wire, at its stop message, with a completion: its items are the parts of the
      blocks as the messages carry them, without metadata, each under the id of its kind and place. */
  lemma AnthropicEndsInCompletion(messages: seq<A.Message>)
    requires A.Orderly(messages)
    ensures EndsWith(Wires(A.EventsOf(messages + [A.MessageStop])), P.SentParts(messages, |P.StartedIndexes(messages)|))
  {
    P.StopSendsResponse(messages);
    CompletedEnds(A.EventsOf(messages), P.SentParts(messages, |P.StartedIndexes(messages)|));
  }
}
