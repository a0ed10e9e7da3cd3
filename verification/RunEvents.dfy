/**
 A whole run of the loop is a legal run of the agent: with its tools ending in any order
 in every turn, it may fail anywhere and still leaves a closed conversation.
 */
module RunEvents {
  import opened Basics
  import opened Transcript
  import opened RunRecovery
  import opened AgentTurn
  import opened LoopClosure
  import opened AgentLoop
  import opened TurnEvents

  /** The results a turn of an honest run appends. */
  function TurnResults(s: St, w: World, pending: seq<Message>, config: Config): seq<Message> {
    match AfterReply(s, w, pending)
    case Err(_) => []
    case Ok(replied) =>
      if w.stopReason(s.turns) in {"error", "aborted"} then [] else BatchOf(s, replied, w, config).results
  }

  /** The guards and handlers of a turn's batch run; otherwise its calls are refused one
      after another, each with its result. */
  predicate Dispatched(s: St, w: World, pending: seq<Message>, config: Config) {
    var request := s.context + pending;
    && w.stopReason(s.turns) !in {"error", "aborted", "length"} && !Rejected(w, s.turns, request)
    && !OverBudget(s.budget, |CallsOf(Reply(w, s.turns, request))|, config.maxToolCalls)
  }

  ghost predicate InSomeOrder(results: seq<Message>, batch: seq<Event>) {
    exists order :: Completion(order, |results|) && batch == BatchEvents(results, order)
  }

  /** `events` may be what a turn emits. */
  ghost predicate TurnEmits(s: St, w: World, pending: seq<Message>, config: Config, events: seq<Event>) {
    var results := TurnResults(s, w, pending, config);
    exists batch ::
      && events == TurnEventsOf(pending, Reply(w, s.turns, s.context + pending), batch)
      && if Dispatched(s, w, pending, config) then InSomeOrder(results, batch) else batch == EndsTogether(results)
  }

  /** Every turn of a run emits its events. */
  ghost predicate RunEmits(w: World, config: Config, history: seq<Message>, pendings: seq<seq<Message>>,
                           emitted: seq<seq<Event>>) {
    && |emitted| == |pendings|
    && forall k :: 0 <= k < |pendings| ==>
         TurnEmits(Turns(w, config, history, pendings[..k]), w, pendings[k], config, emitted[k])
  }

  function Flat(emitted: seq<seq<Event>>): seq<Event> {
    if emitted == [] then [] else Flat(emitted[..|emitted| - 1]) + emitted[|emitted| - 1]
  }

  /** An honest turn appends the injected messages, the reply and one result for each call. */
  lemma HonestTurn(w: World, config: Config, history: seq<Message>, s: St, pending: seq<Message>)
    requires Honest(w, history) && Tidy(w, history, s) && AllPlain(pending)
    ensures var reply := Reply(w, s.turns, s.context + pending);
            var results := TurnResults(s, w, pending, config);
            && OneEach(results, CallsOf(reply))
            && TurnResult(s, w, pending, config).0.context == s.context + pending + [reply] + results
  {
    var reply := Reply(w, s.turns, s.context + pending);
    InjectTidy(w, history, s, pending);
    AskedAsIs(s, w, pending);
    if w.stopReason(s.turns) in {"error", "aborted"} {
      SanitizedNoCalls(w, s.turns, s.context + pending);
      NoneAdded(s.context + pending + [reply]);
    } else {
      BatchAnswersReply(s, w, config, AfterReply(s, w, pending).value);
    }
  }

  lemma InAnyOrder(n: nat) returns (order: seq<nat>)
    ensures Completion(order, n)
  {
    order := seq(n, k requires 0 <= k < n => k);
    forall i: nat | i < n ensures i in order {
      assert order[i] == i;
    }
  }

  lemma HonestTurnLegal(w: World, config: Config, history: seq<Message>, s: St, pending: seq<Message>,
                        events: seq<Event>)
    requires Honest(w, history) && Tidy(w, history, s) && AllPlain(pending)
    requires TurnEmits(s, w, pending, config, events)
    ensures LegalRun(Run(s.context, map[]), events)
    ensures Play(Run(s.context, map[]), events) == Run(TurnResult(s, w, pending, config).0.context, map[])
  {
    var results := TurnResults(s, w, pending, config);
    HonestTurn(w, config, history, s, pending);
    if Dispatched(s, w, pending, config) {
      var order :| Completion(order, |results|)
        && events == TurnEventsOf(pending, Reply(w, s.turns, s.context + pending), BatchEvents(results, order));
      TurnLegal(w, history, s, pending, results, order);
    } else {
      var order := InAnyOrder(|results|);
      TurnLegal(w, history, s, pending, results, order);
    }
  }

  lemma {:induction false} TurnsTidy(w: World, config: Config, history: seq<Message>, pendings: seq<seq<Message>>)
    requires Honest(w, history) && PlainTurns(pendings)
    ensures Tidy(w, history, Turns(w, config, history, pendings))
  {
    if pendings == [] {
      StartsRunning(w, config, history);
    } else {
      var last := |pendings| - 1;
      TurnsTidy(w, config, history, pendings[..last]);
      TurnKeepsTidy(w, config, history, Turns(w, config, history, pendings[..last]), pendings[last]);
    }
  }

  /** The events of one turn bring the agent from one history to the next. */
  ghost predicate Leads(before: seq<Message>, events: seq<Event>, after: seq<Message>) {
    LegalRun(Run(before, map[]), events) && Play(Run(before, map[]), events) == Run(after, map[])
  }

  lemma LeadsOn(a: seq<Message>, first: seq<Event>, b: seq<Message>, second: seq<Event>, c: seq<Message>)
    requires Leads(a, first, b) && Leads(b, second, c)
    ensures Leads(a, first + second, c)
  {
    RunAppend(Run(a, map[]), first, second);
  }

  lemma {:induction false} LeadsThrough(contexts: seq<seq<Message>>, emitted: seq<seq<Event>>)
    requires |contexts| == |emitted| + 1
    requires forall k: nat :: k < |emitted| ==> Leads(contexts[k], emitted[k], contexts[k + 1])
    ensures Leads(contexts[0], Flat(emitted), contexts[|emitted|])
    decreases |emitted|
  {
    if emitted != [] {
      var last := |emitted| - 1;
      forall k: nat | k < last
        ensures Leads(contexts[..last + 1][k], emitted[..last][k], contexts[..last + 1][k + 1])
      {
        assert Leads(contexts[k], emitted[k], contexts[k + 1]);
      }
      LeadsThrough(contexts[..last + 1], emitted[..last]);
      assert Leads(contexts[last], emitted[last], contexts[last + 1]);
      LeadsOn(contexts[0], Flat(emitted[..last]), contexts[last], emitted[last], contexts[last + 1]);
    }
  }

  lemma TurnLeads(w: World, config: Config, history: seq<Message>, pendings: seq<seq<Message>>, k: nat,
                  events: seq<Event>)
    requires Honest(w, history) && PlainTurns(pendings) && k < |pendings|
    requires TurnEmits(Turns(w, config, history, pendings[..k]), w, pendings[k], config, events)
    ensures Leads(Turns(w, config, history, pendings[..k]).context, events,
                  Turns(w, config, history, pendings[..k + 1]).context)
  {
    TurnsTidy(w, config, history, pendings[..k]);
    HonestTurnLegal(w, config, history, Turns(w, config, history, pendings[..k]), pendings[k], events);
    assert pendings[..k + 1][..k] == pendings[..k];
  }

  /** All events of an honest run, however many turns it takes and however their tools
      end, are a legal run of the agent that ends with the loop's history. */
  lemma HonestRunLegal(w: World, config: Config, history: seq<Message>, pendings: seq<seq<Message>>,
                       emitted: seq<seq<Event>>)
    requires Honest(w, history) && PlainTurns(pendings) && RunEmits(w, config, history, pendings, emitted)
    ensures LegalRun(Run(history, map[]), Flat(emitted))
    ensures Play(Run(history, map[]), Flat(emitted)) == Run(Turns(w, config, history, pendings).context, map[])
  {
    var contexts := seq(|pendings| + 1,
                        k requires 0 <= k <= |pendings| => Turns(w, config, history, pendings[..k]).context);
    forall k: nat | k < |emitted| ensures Leads(contexts[k], emitted[k], contexts[k + 1]) {
      TurnLeads(w, config, history, pendings, k, emitted[k]);
    }
    LeadsThrough(contexts, emitted);
    assert pendings[..|pendings|] == pendings;
  }

  lemma LegalPrefix(r: Run, events: seq<Event>, n: nat)
    requires LegalRun(r, events) && n <= |events|
    ensures LegalRun(r, events[..n]) && (n < |events| ==> Legal(Play(r, events[..n]), events[n]))
  {
    assert events == events[..n] + events[n..];
    RunAppend(r, events[..n], events[n..]);
  }

  /** An honest run of the loop may fail after any of its events, or while its listeners
      still deal with the next one: the conversation ends closed, and every tool that
      ended keeps its real result exactly once. */
  lemma HonestRunFailsAnywhere(w: World, config: Config, history: seq<Message>, pendings: seq<seq<Message>>,
                               emitted: seq<seq<Event>>, n: nat, cut: Cut, text: string, failure: Message)
    requires Honest(w, history) && PlainTurns(pendings) && RunEmits(w, config, history, pendings, emitted)
    requires n <= |Flat(emitted)| && (cut.Between? || (n < |Flat(emitted)| && cut == During(Flat(emitted)[n])))
    requires failure.Assistant? && CallsOf(failure) == []
    ensures var events := Flat(emitted)[..n];
            var final := Recovered(RunRecovery.Stopped(Run(history, map[]), events, cut), text) + [failure];
            && Closed(final) && OneResultEach(final)
            && forall m :: RunRecovery.Ended(events, cut, m) ==> m in final
  {
    HonestRunLegal(w, config, history, pendings, emitted);
    LegalPrefix(Run(history, map[]), Flat(emitted), n);
    FailAnywhere(history, Flat(emitted)[..n], cut, text, failure);
  }
}
