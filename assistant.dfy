/**
 * The main loop: announce, wait (Dormant) for a transcript containing the
 * wake phrase, acknowledge once, then (Awake) hand every later transcript
 * to the router until it decides to exit. `listen()` is replaced by a
 * finite sequence of heard transcripts, each with the answers the outside
 * world gives while it is handled.
 */
module Assistant {
  import opened Text
  import opened Memory
  import opened Router

  const WakeWord: string := "hey thiru"
  const Greeting: string := "THIRU initialized. Say hey thiru."
  const Acknowledge: string := "I am here."

  datatype State = Dormant | Awake | Exited

  /** One finalised utterance together with the world's answers while it is handled. */
  datatype Heard = Heard(text: string, env: Env)

  /** Where the machine ends, what it emitted, and the table afterwards. */
  datatype Outcome = Outcome(state: State, events: seq<Event>, rows: seq<Row>)

  function Prepend(events: seq<Event>, o: Outcome): Outcome
  {
    Outcome(o.state, events + o.events, o.rows)
  }

  /** One transition of the two-state machine on one heard transcript. */
  function Step(state: State, heard: Heard, rows: seq<Row>): Outcome
  {
    match state
    case Dormant =>
      if Contains(heard.text, WakeWord) then Outcome(Awake, [Say(Acknowledge)], rows)
      else Outcome(Dormant, [], rows)
    case Awake =>
      var r := HandleSpec(heard.text, heard.env, rows);
      Outcome(if r.decision == Exit then Exited else Awake, r.events, r.rows)
    case Exited => Outcome(Exited, [], rows)
  }

  /** The machine run over `inputs` from `state`, stopping once it has exited. */
  function Drive(state: State, inputs: seq<Heard>, rows: seq<Row>): Outcome
    decreases |inputs|
  {
    if inputs == [] || state == Exited then Outcome(state, [], rows)
    else
      var t := Step(state, inputs[0], rows);
      Prepend(t.events, Drive(t.state, inputs[1..], t.rows))
  }

  /** The whole program: the start-up announcement, then the machine from Dormant. */
  function Boot(inputs: seq<Heard>, rows: seq<Row>): Outcome
  {
    Prepend([Say(Greeting)], Drive(Dormant, inputs, rows))
  }

  /** The index of the first transcript containing the wake phrase, or |inputs| if none does. */
  function FirstWake(inputs: seq<Heard>): (w: nat)
    ensures w <= |inputs|
    ensures w < |inputs| ==> Contains(inputs[w].text, WakeWord)
    ensures forall j | 0 <= j < w :: !Contains(inputs[j].text, WakeWord)
  {
    if inputs == [] then 0
    else if Contains(inputs[0].text, WakeWord) then 0
    else 1 + FirstWake(inputs[1..])
  }

  /**
   * While Dormant nothing is routed and the table is untouched: the machine
   * says nothing until the first transcript with the wake phrase, then
   * acknowledges exactly once and runs Awake on the transcripts after it.
   */
  lemma {:induction false} DormantUntilWake(inputs: seq<Heard>, rows: seq<Row>)
    ensures var w := FirstWake(inputs);
      Drive(Dormant, inputs, rows)
      == if w == |inputs| then Outcome(Dormant, [], rows)
         else Prepend([Say(Acknowledge)], Drive(Awake, inputs[w + 1..], rows))
    decreases |inputs|
  {
    if inputs != [] && !Contains(inputs[0].text, WakeWord) {
      DormantUntilWake(inputs[1..], rows);
      if FirstWake(inputs[1..]) < |inputs| - 1 {
        assert inputs[1..][FirstWake(inputs[1..]) + 1..] == inputs[FirstWake(inputs) + 1..];
      }
    }
  }

  /** Awake, the session exits exactly when some transcript holds "sleep" or "exit"; otherwise it stays Awake. */
  lemma {:induction false} AwakeExitsIff(inputs: seq<Heard>, rows: seq<Row>)
    ensures Drive(Awake, inputs, rows).state == Exited
        <==> exists i | 0 <= i < |inputs| :: IsExitCommand(inputs[i].text)
    ensures Drive(Awake, inputs, rows).state in {Awake, Exited}
    decreases |inputs|
  {
    if inputs != [] {
      var r := HandleSpec(inputs[0].text, inputs[0].env, rows);
      ExitDecision(inputs[0].text, inputs[0].env, rows);
      if !IsExitCommand(inputs[0].text) {
        AwakeExitsIff(inputs[1..], r.rows);
        forall i | 1 <= i < |inputs|
          ensures inputs[i] == inputs[1..][i - 1]
        {
        }
      }
    }
  }

  lemma ExitDecision(cmd: string, env: Env, rows: seq<Row>)
    ensures HandleSpec(cmd, env, rows).decision == Exit <==> IsExitCommand(cmd)
  {
    DecisionCases(cmd, env, rows);
  }

  /** Once the machine has exited, whatever is heard afterwards changes nothing. */
  lemma {:induction false} NothingAfterExit(state: State, inputs: seq<Heard>, more: seq<Heard>, rows: seq<Row>)
    requires Drive(state, inputs, rows).state == Exited
    ensures Drive(state, inputs + more, rows) == Drive(state, inputs, rows)
    decreases |inputs|
  {
    if inputs == [] {
      assert inputs + more == more;
    } else if state != Exited {
      var t := Step(state, inputs[0], rows);
      assert (inputs + more)[0] == inputs[0];
      assert (inputs + more)[1..] == inputs[1..] + more;
      NothingAfterExit(t.state, inputs[1..], more, t.rows);
    }
  }

  /** The table only grows, and every row added is a note. */
  lemma {:induction false} OnlyNotesAdded(state: State, inputs: seq<Heard>, rows: seq<Row>)
    ensures var o := Drive(state, inputs, rows);
      && rows <= o.rows
      && forall k | |rows| <= k < |o.rows| :: o.rows[k].0 == NoteCategory
    decreases |inputs|
  {
    if inputs != [] && state != Exited {
      var t := Step(state, inputs[0], rows);
      if state == Awake {
        OnlyNotesWrite(inputs[0].text, inputs[0].env, rows);
      }
      OnlyNotesAdded(t.state, inputs[1..], t.rows);
    }
  }

  /** One Awake step at index `i`: handle the transcript, then stop if it exits or go on. */
  lemma AwakeStep(inputs: seq<Heard>, i: nat, rows: seq<Row>)
    requires i < |inputs|
    ensures var r := HandleSpec(inputs[i].text, inputs[i].env, rows);
      Drive(Awake, inputs[i..], rows)
      == if r.decision == Exit then Outcome(Exited, r.events, r.rows)
         else Prepend(r.events, Drive(Awake, inputs[i + 1..], r.rows))
  {
    assert inputs[i..][0] == inputs[i] && inputs[i..][1..] == inputs[i + 1..];
  }

  /**
   * The inner `while True: handle(listen())` loop: every transcript goes to
   * the router until one makes it exit. Returns Exited in that case and
   * Awake when the transcripts run out, with everything said and printed.
   */
  method Converse(store: MemoryStore, inputs: seq<Heard>) returns (final: State, events: seq<Event>)
    modifies store
    ensures Outcome(final, events, store.rows) == Drive(Awake, inputs, old(store.rows))
  {
    ghost var rows0 := store.rows;
    events := [];
    var i := 0;
    while i < |inputs|
      invariant 0 <= i <= |inputs|
      invariant Drive(Awake, inputs, rows0) == Prepend(events, Drive(Awake, inputs[i..], store.rows))
      decreases |inputs| - i
    {
      AwakeStep(inputs, i, store.rows);
      var decision, lines := Handle(store, inputs[i].text, inputs[i].env);
      events := events + lines;
      i := i + 1;
      if decision == Exit {
        return Exited, events;
      }
    }
    return Awake, events;
  }

  /**
   * The `__main__` block: announce, loop on `listen()` until the wake
   * phrase, acknowledge, then converse. Returns the state the machine was in
   * when the transcripts ran out (Exited if a sleep command ended it) and
   * everything said and printed.
   */
  method Run(store: MemoryStore, inputs: seq<Heard>) returns (final: State, events: seq<Event>)
    modifies store
    ensures Outcome(final, events, store.rows) == Boot(inputs, old(store.rows))
    ensures events[0] == Say(Greeting)
  {
    events := [Say(Greeting)];
    var i := 0;
    while i < |inputs| && !Contains(inputs[i].text, WakeWord)
      invariant 0 <= i <= |inputs|
      invariant forall j | 0 <= j < i :: !Contains(inputs[j].text, WakeWord)
    {
      i := i + 1;
    }
    DormantUntilWake(inputs, store.rows);
    assert i == FirstWake(inputs);
    if i == |inputs| {
      return Dormant, events;
    }
    var session;
    final, session := Converse(store, inputs[i + 1..]);
    events := events + [Say(Acknowledge)] + session;
  }
}
