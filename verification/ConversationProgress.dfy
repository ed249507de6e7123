/** The conversation controller does its work: undisturbed, authority is taken up
    and a message that was written is reviewed, confirmed and shown as sent. */
module ConversationProgress {
  import opened Wrappers
  import opened ConversationValues
  import opened ConversationController
  import opened ConversationRuns

  function Taken(w: World, reply: AuthorityReply): World {
    Step(Step(w, Authorize), SettleAuthority(w.next, reply))
  }

  /** A valid answer that comes at once opens the conversation it names, unless
      an outcome is unknown. */
  lemma AuthorityIsTaken(w: World, reply: AuthorityReply)
    requires w.s.uncertain.None? && GrantsAuthority(reply, w.now, w.now)
    ensures var v := Taken(w, reply);
            && IsLive(v.s, v.now) && v.s.current == Some(reply.scope)
            && v.s.until == w.now + reply.validForMs.value && v.authorityStart == w.now
            && v.s.messages == [] && v.s.draft == Str([]) && v.s.busy == w.s.busy && v.s.uncertain.None?
            && v.confirmed == w.confirmed
  {
    var u := Step(w, Authorize);
    assert u.tasks[w.next] == AuthorityTask(w.s.revision + 1, w.now);
  }

  function Prepared(w: World, text: Text): World {
    Step(Step(Step(w, Edit(Str(text))), Prepare), SettlePrepare(w.next, Candidate(true)))
  }

  /** A draft becomes a review of exactly that text, under the present scope. */
  lemma DraftIsReviewed(w: World, text: Text)
    requires IsLive(w.s, w.now) && !w.s.busy && ValidBody(Str(text))
    ensures var v := Prepared(w, text);
            && v.s == w.s.(revision := w.s.revision + 2, draft := Str(text),
                           review := Some(Review(w.s.current.value, text, w.next, w.s.revision + 2)))
            && v.now == w.now && v.next == w.next + 1 && v.confirmed == w.confirmed
            && v.installed == w.installed + multiset{w.next}
  {
    var u := Step(w, Edit(Str(text)));
    assert u.s == w.s.(revision := w.s.revision + 1, review := None, draft := Str(text));
    var x := Step(u, Prepare);
    assert x.tasks[w.next] == PrepareTask(w.s.revision + 2, w.s.current.value, text);
  }

  function Confirmed(w: World, status: Status): World {
    Step(Step(w, Confirm), SettleConfirm(w.next, Settled(Some(status))))
  }

  /** A review that can be confirmed is: its candidate is called once, its text
      is shown as sent, and the draft is empty. */
  lemma ReviewIsSent(w: World, status: Status)
    requires IsLive(w.s, w.now) && !w.s.busy && ReviewMatches(w.s)
    ensures var v := Confirmed(w, status);
            && v.s == w.s.(messages := w.s.messages + [Outbound(w.s.review.value.body, status)],
                           draft := Str([]), review := None)
            && v.now == w.now && v.confirmed == w.confirmed + multiset{w.s.review.value.handle}
  {
    assert Step(w, Confirm).tasks[w.next] == ConfirmTask(w.s.revision, w.s.review.value);
  }

  function Sent(w: World, text: Text, status: Status): World { Confirmed(Prepared(w, text), status) }

  /** From the draft on: exactly the text that was written is reviewed and shown
      as sent, and the reviewed candidate is called and no other, once. */
  lemma ReviewedMessageIsSent(w: World, text: Text, status: Status)
    requires IsLive(w.s, w.now) && !w.s.busy && ValidBody(Str(text))
    ensures var v := Sent(w, text, status);
            && v.s.messages == w.s.messages + [Outbound(text, status)]
            && v.s.draft == Str([]) && v.s.review.None? && !v.s.busy
            && v.s.current == w.s.current && v.s.until == w.s.until && v.s.uncertain == w.s.uncertain && v.now == w.now
            && v.confirmed == w.confirmed + multiset{w.next}
  {
    DraftIsReviewed(w, text);
    ReviewIsSent(Prepared(w, text), status);
  }

  function Arrived(w: World, text: Text): World {
    Step(Step(w, Read), SettleRead(w.next, Plaintext(Str(text))))
  }

  /** A text that arrives is shown, and nothing else changes. */
  lemma ArrivalIsShown(w: World, text: Text)
    requires IsLive(w.s, w.now) && ValidBody(Str(text))
    ensures var v := Arrived(w, text);
            v.s == w.s.(messages := w.s.messages + [Inbound(text)]) && v.confirmed == w.confirmed
  {
    assert Step(w, Read).tasks[w.next] == ReadTask(w.s.revision, w.s.current.value);
  }

  /** A whole exchange, from any idle state in which no outcome is unknown: authority
      is taken, a message is sent and an answer is read. The two texts and nothing
      else are on display, in the conversation that the authority names, and exactly
      one candidate was called. */
  lemma ExchangeCompletes(w: World, reply: AuthorityReply, text: Text, status: Status, answer: Text)
    requires w.s.uncertain.None? && !w.s.busy && GrantsAuthority(reply, w.now, w.now)
    requires ValidBody(Str(text)) && ValidBody(Str(answer))
    ensures var u := Taken(w, reply);
            var v := Arrived(Sent(u, text, status), answer);
            && v.s.messages == [Outbound(text, status), Inbound(answer)] && v.s.current == Some(reply.scope)
            && v.s.draft == Str([]) && v.s.review.None? && !v.s.busy && v.s.uncertain.None?
            && v.confirmed == w.confirmed + multiset{u.next}
  {
    AuthorityIsTaken(w, reply);
    var u := Taken(w, reply);
    ReviewedMessageIsSent(u, text, status);
    ArrivalIsShown(Sent(u, text, status), answer);
  }
}
