/**
 What becomes of a tool call (backend/app/agent/tools.py, backend/app/agent/loop.py): what the dispatcher passes on of
 its handler's answer, and how an expired login ends the message.
 */
module Dispatches {
  import opened Json
  import opened Transcript
  import opened Conversation

  /**
   Case by case: a call counts as a success exactly if it was let through and its handler succeeded, and it then carries
   the envelope as the handler gave it, while the model gets its view of it; a failure passes on its code and message;
   no other outcome has a code, and no other an envelope.
   */
  lemma DispatchSays(cfg: Config, turns: seq<Turn>, name: string, result: HandlerResult)
    ensures var o, through := Dispatch(cfg, turns, name, result), LetThrough(cfg, turns, name);
            && (o.isError <==> !(through && result.Success?))
            && (o.envelope.Some? <==> through && result.Success?)
            && (o.code.Some? <==> through && result.Failure?)
            && (through && result.Success? ==>
                  && o.envelope.value == result.envelope
                  && o.content == Dumped(Canonical(cfg.modelView(name, result.envelope))))
            && (through && result.Failure? ==> o.code.value == result.code && o.content == Str(result.message))
            && (through && result.Raised? ==> o.content == Str(UNEXPECTED))
            && (!through ==> o.content == Str(if name in cfg.tools then NOT_ASKED else "unknown tool: " + name))
  {
  }

  lemma NameIs(use: Block, name: string)
    requires Get(use, "name") == Str(name)
    ensures NameOf(use) == name
  {
  }

  // --- an expired login ------------------------------------------------------------------------------------------

  predicate Expires(o: Outcome) {
    o.code == Some("AUTH_EXPIRED") && o.isError
  }

  /** The event that ends a message over an expired login. */
  predicate TellsExpiry(e: Event) {
    e.name == "error" && Get(e.data, "error") == Str("AUTH_EXPIRED")
  }

  /** No call since, and the message is bound to end in that event, has ended in it, or was cut off. */
  ghost predicate Expiring(s: State, calls: seq<Call>) {
    && s.calls == calls
    && match s.phase
       case Recording(uses, outcomes, k) =>
         && k < |uses| == |outcomes|
         && ((s.authExpired && !s.artifactsOnly) || exists i :: k <= i < |outcomes| && Expires(outcomes[i]))
       case Closing =>
         || (|s.outbox| == 1 && TellsExpiry(s.outbox[0]))
         || (s.outbox == [] && s.emitted != [] && TellsExpiry(s.emitted[|s.emitted| - 1]))
       case Idle => true
       case Arrived(_) => true
       case _ => false
  }

  /** Storing a result of an expired login, or any result after one, leaves the message expired. */
  lemma StoredExpired(cfg: Config, s: State, use: Block, o: Outcome)
    requires (s.authExpired && !s.artifactsOnly) || Expires(o)
    ensures var t := Stored(cfg, s, use, o); t.authExpired && !t.artifactsOnly && t.calls == s.calls
  {
    hide Appended;
  }

  lemma RecordExpiring(cfg: Config, s: State, calls: seq<Call>)
    requires Expiring(s, calls) && Enabled(s, Record)
    ensures Expiring(RecordStep(cfg, s), calls)
  {
    var (uses, outcomes, k) := (s.phase.uses, s.phase.outcomes, s.phase.next);
    if (s.authExpired && !s.artifactsOnly) || Expires(outcomes[k]) {
      StoredExpired(cfg, s, uses[k], outcomes[k]);
    } else {
      var i :| k <= i < |outcomes| && Expires(outcomes[i]);
      assert k + 1 <= i;
    }
    hide Stored, Shown, Sent, DoneEvent;
  }

  lemma ExpiringStep(cfg: Config, s: State, a: Action, calls: seq<Call>)
    requires Expiring(s, calls) && !a.Begin?
    ensures Expiring(Next(cfg, s, a), calls)
  {
    if Enabled(s, a) && a.Record? {
      RecordExpiring(cfg, s, calls);
    } else {
      hide RecordStep, Appended, AfterCrash;
    }
  }

  lemma {:induction false} ExpiringAlways(cfg: Config, acts: seq<Action>, more: seq<Action>, calls: seq<Call>)
    requires Expiring(Exec(cfg, acts), calls) && forall i | 0 <= i < |more| :: !more[i].Begin?
    ensures Expiring(Exec(cfg, acts + more), calls)
    decreases |more|
  {
    hide Expiring, Next;
    if more == [] {
      assert acts + more == acts;
    } else {
      var init, all := more[..|more| - 1], acts + more;
      ExpiringAlways(cfg, acts, init, calls);
      assert all[..|all| - 1] == acts + init && all[|all| - 1] == more[|more| - 1];
      ExpiringStep(cfg, Exec(cfg, acts + init), more[|more| - 1], calls);
    }
  }

  lemma GatherExpires(cfg: Config, s: State, results: seq<HandlerResult>, i: nat, name: string)
    requires Enabled(s, Gathered(results)) && i < |s.phase.uses| && Get(s.phase.uses[i], "name") == Str(name)
    requires LetThrough(cfg, s.turns, name) && results[i].Failure? && results[i].code == "AUTH_EXPIRED"
    ensures Expiring(Next(cfg, s, Gathered(results)), s.calls)
  {
    var outcomes := Outcomes(cfg, s.turns, s.phase.uses, results);
    NameIs(s.phase.uses[i], name);
    DispatchSays(cfg, s.turns, name, results[i]);
    assert Expires(outcomes[i]);
    hide Dispatch, Outcomes, Shown;
  }

  /**
   When a handler that was reached fails over an expired login, the message ends with it: whatever the other calls of
   the round answered and whatever else happens, no model call is made before the next message begins, and if the stream
   runs to its end, its last event says so.
   */
  lemma ExpiryEndsMessage(cfg: Config, acts: seq<Action>, results: seq<HandlerResult>, i: nat, name: string,
                          more: seq<Action>)
    requires Enabled(Exec(cfg, acts), Gathered(results)) && i < |results| == |Exec(cfg, acts).phase.uses|
    requires Get(Exec(cfg, acts).phase.uses[i], "name") == Str(name) && LetThrough(cfg, Exec(cfg, acts).turns, name)
    requires results[i].Failure? && results[i].code == "AUTH_EXPIRED"
    requires forall j | 0 <= j < |more| :: !more[j].Begin?
    ensures Exec(cfg, acts + [Gathered(results)] + more).calls == Exec(cfg, acts).calls
    ensures var s := Exec(cfg, acts + [Gathered(results)] + more);
            Enabled(s, Return) ==> s.emitted != [] && TellsExpiry(s.emitted[|s.emitted| - 1])
  {
    var gathered := acts + [Gathered(results)];
    assert gathered[..|acts|] == acts;
    GatherExpires(cfg, Exec(cfg, acts), results, i, name);
    ExpiringAlways(cfg, gathered, more, Exec(cfg, acts).calls);
  }
}
