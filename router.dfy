/**
 * The command router: `offline_brain` and `handle`. A transcript is tested
 * against a fixed, ordered list of case-sensitive substring rules and the
 * first rule that matches is the only one that runs. When no offline rule
 * matches, the connectivity probe and the information keywords decide
 * between an online lookup and the "I am listening." filler.
 *
 * Speech, console output and the two network calls are recorded as events:
 * `Say(t)` is `speak(t)` (console echo and speech), `Print(t)` a console
 * line, `Probe` the connectivity check, `LookUp(q)` the knowledge lookup.
 */
module Router {
  import opened Optional
  import opened Text
  import opened Memory
  import opened Clock

  datatype Event = Say(text: string) | Print(text: string) | Probe | LookUp(query: string)

  /** What the outside world answers while one transcript is handled. */
  datatype Env = Env(online: bool, now: LocalTime, answer: Option<string>)

  datatype Decision = Exit | HandledLocally | HandledOnline | Unhandled

  datatype Rule = Sleep | TellTime | TakeNote | ListNotes | PythonStarter | MlSteps | Comfort

  const NoteCategory: string := "note"
  const NoteTrigger: string := "remember that"

  const Farewell: string := "Sleeping. Call me when needed."
  const WillRemember: string := "I will remember that."
  const HereIsMemory: string := "Here is what I remember."
  const NothingYet: string := "I don't remember anything yet."
  const PythonAck: string := "Python starter code printed."
  const PythonSnippet: string :=
    "\ndef main():\n    print(\"Hello from THIRU\")\n\nif __name__ == \"__main__\":\n    main()\n"
  const MlAck: string := "Machine learning steps printed."
  const MlSnippet: string := "\n1. Dataset\n2. Preprocessing\n3. Train\n4. Evaluate\n"
  const Comforting: string := "Pain made you deeper. Depth makes you powerful."
  const CheckingOnline: string := "Let me check online."
  const NotFound: string := "I could not find clear information online."
  const Listening: string := "I am listening."

  /** The words that send an otherwise unhandled transcript online. */
  const OnlineKeywords: seq<string> := ["who", "what", "search", "explain", "latest"]

  /** Every phrase an offline rule tests for, in the order they are tested. */
  const OfflineKeywords: seq<string> :=
    ["time", "remember that", "what do you remember", "python", "machine learning", "ml", "sad", "broken"]

  /** The routing rules with their trigger phrases, highest priority first. */
  const RuleTable: seq<(Rule, seq<string>)> := [
    (Sleep, ["sleep", "exit"]),
    (TellTime, ["time"]),
    (TakeNote, ["remember that"]),
    (ListNotes, ["what do you remember"]),
    (PythonStarter, ["python"]),
    (MlSteps, ["machine learning", "ml"]),
    (Comfort, ["sad", "broken"])
  ]

  predicate IsExitCommand(cmd: string)
  {
    Contains(cmd, "sleep") || Contains(cmd, "exit")
  }

  /** The rule `offline_brain` runs: its chain of tests, first match wins. */
  function OfflineRule(cmd: string): Option<Rule>
  {
    if Contains(cmd, "time") then Some(TellTime)
    else if Contains(cmd, NoteTrigger) then Some(TakeNote)
    else if Contains(cmd, "what do you remember") then Some(ListNotes)
    else if Contains(cmd, "python") then Some(PythonStarter)
    else if Contains(cmd, "machine learning") || Contains(cmd, "ml") then Some(MlSteps)
    else if Contains(cmd, "sad") || Contains(cmd, "broken") then Some(Comfort)
    else None
  }

  /** The rule `handle` runs: the sleep/exit test comes before all of offline_brain's. */
  function HandleRule(cmd: string): Option<Rule>
  {
    if IsExitCommand(cmd) then Some(Sleep) else OfflineRule(cmd)
  }

  /** The text a note is stored as: the transcript with every "remember that" removed. */
  function NoteText(cmd: string): string
  {
    RemoveAll(cmd, NoteTrigger)
  }

  /** The spoken time announcement, strftime("Time is %H:%M"). */
  function TimeAnnouncement(now: LocalTime): string
  {
    "Time is " + FormatHHMM(now)
  }

  /** What `online_info` returns: the summary, or the fixed failure text. */
  function OnlineInfo(answer: Option<string>): string
  {
    match answer
    case Some(summary) => summary
    case None => NotFound
  }

  /** The console lines `print("-", m[0])` writes for each remembered note. */
  function Bullets(notes: seq<string>): (lines: seq<Event>)
    ensures |lines| == |notes|
    ensures forall i | 0 <= i < |notes| :: lines[i] == Print("- " + notes[i])
  {
    if notes == [] then [] else [Print("- " + notes[0])] + Bullets(notes[1..])
  }

  /** What running one rule produces: its events and the table afterwards. */
  datatype Effect = Effect(events: seq<Event>, rows: seq<Row>)

  function Respond(rule: Rule, cmd: string, now: LocalTime, rows: seq<Row>): Effect
  {
    match rule
    case Sleep => Effect([Say(Farewell)], rows)
    case TellTime => Effect([Say(TimeAnnouncement(now))], rows)
    case TakeNote => Effect([Say(WillRemember)], rows + [(NoteCategory, NoteText(cmd))])
    case ListNotes =>
      var notes := Select(rows, NoteCategory);
      if notes != [] then Effect([Say(HereIsMemory)] + Bullets(notes), rows)
      else Effect([Say(NothingYet)], rows)
    case PythonStarter => Effect([Say(PythonAck), Print(PythonSnippet)], rows)
    case MlSteps => Effect([Say(MlAck), Print(MlSnippet)], rows)
    case Comfort => Effect([Say(Comforting)], rows)
  }

  /** The result of `offline_brain`: whether it handled the transcript, its events, the table. */
  datatype Offline = Offline(handled: bool, events: seq<Event>, rows: seq<Row>)

  function OfflineSpec(cmd: string, now: LocalTime, rows: seq<Row>): Offline
  {
    match OfflineRule(cmd)
    case Some(rule) =>
      var e := Respond(rule, cmd, now, rows);
      Offline(true, e.events, e.rows)
    case None => Offline(false, [], rows)
  }

  /** The result of `handle` on one transcript. */
  datatype Reaction = Reaction(decision: Decision, events: seq<Event>, rows: seq<Row>)

  function HandleSpec(cmd: string, env: Env, rows: seq<Row>): Reaction
  {
    if IsExitCommand(cmd) then Reaction(Exit, [Say(Farewell)], rows)
    else
      var off := OfflineSpec(cmd, env.now, rows);
      if off.handled then Reaction(HandledLocally, off.events, off.rows)
      else if env.online && ContainsAny(cmd, OnlineKeywords) then
        Reaction(HandledOnline, [Probe, Say(CheckingOnline), LookUp(cmd), Say(OnlineInfo(env.answer))], rows)
      else Reaction(Unhandled, [Probe, Say(Listening)], rows)
  }

  // ---------------------------------------------------------------------
  // The operations, as the source runs them.

  /** The `for m in mem: print("-", m[0])` loop. */
  method PrintNotes(notes: seq<string>) returns (lines: seq<Event>)
    ensures |lines| == |notes|
    ensures forall i | 0 <= i < |notes| :: lines[i] == Print("- " + notes[i])
  {
    lines := [];
    for i := 0 to |notes|
      invariant |lines| == i
      invariant forall k | 0 <= k < i :: lines[k] == Print("- " + notes[k])
    {
      lines := lines + [Print("- " + notes[i])];
    }
  }

  /** The `any(x in cmd for x in keywords)` scan, stopping at the first hit. */
  method AnyKeyword(cmd: string, keywords: seq<string>) returns (found: bool)
    ensures found <==> exists j | 0 <= j < |keywords| :: Contains(cmd, keywords[j])
  {
    found := false;
    var i := 0;
    while i < |keywords| && !found
      invariant 0 <= i <= |keywords|
      invariant found ==> 0 < i && Contains(cmd, keywords[i - 1])
      invariant !found ==> forall j | 0 <= j < i :: !Contains(cmd, keywords[j])
    {
      found := Contains(cmd, keywords[i]);
      i := i + 1;
    }
  }

  /** `offline_brain(cmd)`. */
  method OfflineBrain(store: MemoryStore, cmd: string, now: LocalTime) returns (handled: bool, events: seq<Event>)
    modifies store
    ensures Offline(handled, events, store.rows) == OfflineSpec(cmd, now, old(store.rows))
  {
    if Contains(cmd, "time") {
      return true, [Say(TimeAnnouncement(now))];
    }
    if Contains(cmd, NoteTrigger) {
      store.Remember(NoteCategory, RemoveAll(cmd, NoteTrigger));
      return true, [Say(WillRemember)];
    }
    if Contains(cmd, "what do you remember") {
      var mem := store.Recall(NoteCategory);
      if mem != [] {
        var lines := PrintNotes(mem);
        return true, [Say(HereIsMemory)] + lines;
      } else {
        return true, [Say(NothingYet)];
      }
    }
    if Contains(cmd, "python") {
      return true, [Say(PythonAck), Print(PythonSnippet)];
    }
    if Contains(cmd, "machine learning") || Contains(cmd, "ml") {
      return true, [Say(MlAck), Print(MlSnippet)];
    }
    if Contains(cmd, "sad") || Contains(cmd, "broken") {
      return true, [Say(Comforting)];
    }
    return false, [];
  }

  /** `handle(cmd)`; the Exit decision stands for the process exit. */
  method Handle(store: MemoryStore, cmd: string, env: Env) returns (decision: Decision, events: seq<Event>)
    modifies store
    ensures Reaction(decision, events, store.rows) == HandleSpec(cmd, env, old(store.rows))
  {
    if Contains(cmd, "sleep") || Contains(cmd, "exit") {
      return Exit, [Say(Farewell)];
    }
    var handled, lines := OfflineBrain(store, cmd, env.now);
    if handled {
      return HandledLocally, lines;
    }
    events := [Probe];
    if env.online {
      var asks := AnyKeyword(cmd, OnlineKeywords);
      if asks {
        var info := OnlineInfo(env.answer);
        return HandledOnline, events + [Say(CheckingOnline), LookUp(cmd), Say(info)];
      }
    }
    return Unhandled, events + [Say(Listening)];
  }

  // ---------------------------------------------------------------------
  // The rule table as a reference: first match wins.

  /** The first rule of `table`, from index `i` on, one of whose phrases occurs in `cmd`. */
  function FirstMatch(table: seq<(Rule, seq<string>)>, cmd: string, i: nat): (r: Option<Rule>)
    ensures r.Some? ==> exists j | i <= j < |table| :: table[j].0 == r.value && ContainsAny(cmd, table[j].1)
    decreases |table| - i
  {
    if i >= |table| then None
    else if ContainsAny(cmd, table[i].1) then Some(table[i].0)
    else FirstMatch(table, cmd, i + 1)
  }

  /** The position of each rule in RuleTable. */
  function Rank(rule: Rule): nat
  {
    match rule
    case Sleep => 0
    case TellTime => 1
    case TakeNote => 2
    case ListNotes => 3
    case PythonStarter => 4
    case MlSteps => 5
    case Comfort => 6
  }

  /** Each entry sits at its rule's rank, so no rule appears twice. */
  predicate Ranked(table: seq<(Rule, seq<string>)>)
  {
    forall i | 0 <= i < |table| :: Rank(table[i].0) == i
  }

  /** Scanning from `i`, rule `k` is picked exactly when it matches and no rule between `i` and `k` does. */
  lemma {:induction false} FirstMatchPicksEarliest(table: seq<(Rule, seq<string>)>, cmd: string, i: nat, k: nat)
    requires Ranked(table) && i <= k < |table|
    ensures FirstMatch(table, cmd, i) == Some(table[k].0)
        <==> ContainsAny(cmd, table[k].1) && forall j | i <= j < k :: !ContainsAny(cmd, table[j].1)
    decreases k - i
  {
    if i < k {
      assert Rank(table[i].0) != Rank(table[k].0);
      FirstMatchPicksEarliest(table, cmd, i + 1, k);
    } else if !ContainsAny(cmd, table[k].1) && FirstMatch(table, cmd, k + 1).Some? {
      var j :| k + 1 <= j < |table| && table[j].0 == FirstMatch(table, cmd, k + 1).value;
      assert Rank(table[k].0) != Rank(table[j].0);
    }
  }

  /** Scanning from `i` picks nothing exactly when no rule from `i` on matches. */
  lemma {:induction false} FirstMatchNone(table: seq<(Rule, seq<string>)>, cmd: string, i: nat)
    ensures FirstMatch(table, cmd, i) == None <==> forall j | i <= j < |table| :: !ContainsAny(cmd, table[j].1)
    decreases |table| - i
  {
    if i < |table| {
      FirstMatchNone(table, cmd, i + 1);
    }
  }

  lemma ContainsAnyOne(s: string, a: string)
    ensures ContainsAny(s, [a]) <==> Contains(s, a)
  {
    assert [a][0] == a;
  }

  lemma ContainsAnyTwo(s: string, a: string, b: string)
    ensures ContainsAny(s, [a, b]) <==> Contains(s, a) || Contains(s, b)
  {
    assert [a, b][0] == a && [a, b][1] == b;
  }

  /** The chain of tests in `handle` and `offline_brain` is the first match over RuleTable. */
  lemma HandleRuleFollowsTable(cmd: string)
    ensures HandleRule(cmd) == FirstMatch(RuleTable, cmd, 0)
  {
    var t := RuleTable;
    assert FirstMatch(t, cmd, 7) == None;
    assert FirstMatch(t, cmd, 6) == (if Contains(cmd, "sad") || Contains(cmd, "broken") then Some(Comfort) else None) by {
      ContainsAnyTwo(cmd, "sad", "broken");
    }
    assert FirstMatch(t, cmd, 5)
        == (if Contains(cmd, "machine learning") || Contains(cmd, "ml") then Some(MlSteps) else FirstMatch(t, cmd, 6)) by {
      ContainsAnyTwo(cmd, "machine learning", "ml");
    }
    assert FirstMatch(t, cmd, 4) == (if Contains(cmd, "python") then Some(PythonStarter) else FirstMatch(t, cmd, 5)) by {
      ContainsAnyOne(cmd, "python");
    }
    assert FirstMatch(t, cmd, 3)
        == (if Contains(cmd, "what do you remember") then Some(ListNotes) else FirstMatch(t, cmd, 4)) by {
      ContainsAnyOne(cmd, "what do you remember");
    }
    assert FirstMatch(t, cmd, 2) == (if Contains(cmd, NoteTrigger) then Some(TakeNote) else FirstMatch(t, cmd, 3)) by {
      ContainsAnyOne(cmd, "remember that");
    }
    assert FirstMatch(t, cmd, 1) == (if Contains(cmd, "time") then Some(TellTime) else FirstMatch(t, cmd, 2)) by {
      ContainsAnyOne(cmd, "time");
    }
    assert FirstMatch(t, cmd, 0) == (if IsExitCommand(cmd) then Some(Sleep) else FirstMatch(t, cmd, 1)) by {
      ContainsAnyTwo(cmd, "sleep", "exit");
    }
  }

  /**
   * Fixed priority: rule `k` of the table runs exactly when one of its
   * phrases occurs in the transcript and no phrase of an earlier rule does;
   * no rule runs exactly when no phrase of any rule occurs.
   */
  lemma HandleRulePriority(cmd: string, k: nat)
    requires k < |RuleTable|
    ensures HandleRule(cmd) == Some(RuleTable[k].0)
        <==> ContainsAny(cmd, RuleTable[k].1) && forall j | 0 <= j < k :: !ContainsAny(cmd, RuleTable[j].1)
    ensures HandleRule(cmd) == None <==> forall j | 0 <= j < |RuleTable| :: !ContainsAny(cmd, RuleTable[j].1)
  {
    assert Ranked(RuleTable);
    HandleRuleFollowsTable(cmd);
    FirstMatchPicksEarliest(RuleTable, cmd, 0, k);
    FirstMatchNone(RuleTable, cmd, 0);
  }

  // ---------------------------------------------------------------------
  // What one call of `handle` does.

  /** A transcript containing "sleep" or "exit" only says goodbye and ends the session. */
  lemma ExitComesFirst(cmd: string, env: Env, rows: seq<Row>)
    requires Contains(cmd, "sleep") || Contains(cmd, "exit")
    ensures HandleSpec(cmd, env, rows) == Reaction(Exit, [Say(Farewell)], rows)
  {
  }

  /** The decision is Exit, local, online or the filler according to which tests pass. */
  lemma DecisionCases(cmd: string, env: Env, rows: seq<Row>)
    ensures var d := HandleSpec(cmd, env, rows).decision;
      && (d == Exit <==> IsExitCommand(cmd))
      && (d == HandledLocally <==> !IsExitCommand(cmd) && OfflineRule(cmd).Some?)
      && (d == HandledOnline <==> HandleRule(cmd) == None && env.online && ContainsAny(cmd, OnlineKeywords))
      && (d == Unhandled <==> HandleRule(cmd) == None && !(env.online && ContainsAny(cmd, OnlineKeywords)))
  {
  }

  /** Only the note rule writes to the table, and it writes exactly one row. */
  lemma OnlyNotesWrite(cmd: string, env: Env, rows: seq<Row>)
    ensures var r := HandleSpec(cmd, env, rows);
      if HandleRule(cmd) == Some(TakeNote) then r.rows == rows + [(NoteCategory, NoteText(cmd))]
      else r.rows == rows
  {
  }

  /**
   * The note rule stores the transcript with every "remember that" removed
   * under "note", adds nothing to any other category, and acknowledges.
   */
  lemma TakeNoteStores(cmd: string, env: Env, rows: seq<Row>)
    requires HandleRule(cmd) == Some(TakeNote)
    ensures var r := HandleSpec(cmd, env, rows);
      && r.decision == HandledLocally
      && r.events == [Say(WillRemember)]
      && Select(r.rows, NoteCategory) == Select(rows, NoteCategory) + [NoteText(cmd)]
      && forall c | c != NoteCategory :: Select(r.rows, c) == Select(rows, c)
  {
    var r := HandleSpec(cmd, env, rows);
    SelectAppend(rows, (NoteCategory, NoteText(cmd)), NoteCategory);
    forall c | c != NoteCategory
      ensures Select(r.rows, c) == Select(rows, c)
    {
      SelectAppend(rows, (NoteCategory, NoteText(cmd)), c);
    }
  }

  /** A note given as "remember that" followed by text without the phrase is that text exactly. */
  lemma NoteOfPlainRequest(rest: string)
    requires !Contains(rest, NoteTrigger)
    ensures NoteText(NoteTrigger + rest) == rest
  {
    RemoveAllLeading(NoteTrigger, rest);
    RemoveAllWithoutOccurrence(rest, NoteTrigger);
  }

  /**
   * "what do you remember" changes nothing; it says so when there are no
   * notes, and otherwise announces them and prints each in stored order.
   */
  lemma ListNotesReports(cmd: string, env: Env, rows: seq<Row>)
    requires HandleRule(cmd) == Some(ListNotes)
    ensures var r := HandleSpec(cmd, env, rows);
      var notes := Select(rows, NoteCategory);
      && r.decision == HandledLocally
      && r.rows == rows
      && (notes == [] <==> r.events == [Say(NothingYet)])
      && (notes != [] ==>
            |r.events| == 1 + |notes| && r.events[0] == Say(HereIsMemory)
            && forall i | 0 <= i < |notes| :: r.events[1 + i] == Print("- " + notes[i]))
  {
    var notes := Select(rows, NoteCategory);
    var r := HandleSpec(cmd, env, rows);
    if notes != [] {
      assert r.events == [Say(HereIsMemory)] + Bullets(notes);
      assert r.events != [Say(NothingYet)] by {
        assert r.events[0] == Say(HereIsMemory);
      }
    }
  }

  /**
   * `offline_brain` declines exactly when none of its phrases occurs, and
   * then it has said nothing and changed nothing.
   */
  lemma OfflineDeclines(cmd: string, now: LocalTime, rows: seq<Row>)
    ensures !OfflineSpec(cmd, now, rows).handled <==> !ContainsAny(cmd, OfflineKeywords)
    ensures !OfflineSpec(cmd, now, rows).handled ==> OfflineSpec(cmd, now, rows) == Offline(false, [], rows)
  {
    if ContainsAny(cmd, OfflineKeywords) {
      var j :| 0 <= j < |OfflineKeywords| && Contains(cmd, OfflineKeywords[j]);
      assert OfflineRule(cmd).Some?;
    } else {
      assert !Contains(cmd, OfflineKeywords[0]) && !Contains(cmd, OfflineKeywords[1]);
      assert !Contains(cmd, OfflineKeywords[2]) && !Contains(cmd, OfflineKeywords[3]);
      assert !Contains(cmd, OfflineKeywords[4]) && !Contains(cmd, OfflineKeywords[5]);
      assert !Contains(cmd, OfflineKeywords[6]) && !Contains(cmd, OfflineKeywords[7]);
    }
  }

  /**
   * With no offline rule matching, the probe is consulted; only when it
   * reports a connection and an information keyword occurs is the full
   * transcript looked up and the answer (or the failure text) spoken.
   */
  lemma FallThrough(cmd: string, env: Env, rows: seq<Row>)
    requires HandleRule(cmd) == None
    ensures var r := HandleSpec(cmd, env, rows);
      && r.rows == rows
      && (if env.online && ContainsAny(cmd, OnlineKeywords)
          then r == Reaction(HandledOnline, [Probe, Say(CheckingOnline), LookUp(cmd), Say(OnlineInfo(env.answer))], rows)
          else r == Reaction(Unhandled, [Probe, Say(Listening)], rows))
  {
  }

  /** The knowledge lookup is called, with the whole transcript, exactly on online handling. */
  lemma LookUpOnlyOnline(cmd: string, env: Env, rows: seq<Row>)
    ensures var r := HandleSpec(cmd, env, rows);
      && ((exists i | 0 <= i < |r.events| :: r.events[i].LookUp?) <==> r.decision == HandledOnline)
      && forall i | 0 <= i < |r.events| && r.events[i].LookUp? :: r.events[i].query == cmd
  {
    var r := HandleSpec(cmd, env, rows);
    if r.decision == HandledOnline {
      assert r.events[2].LookUp?;
    } else if HandleRule(cmd) == Some(ListNotes) {
      var notes := Select(rows, NoteCategory);
      if notes != [] {
        assert r.events == [Say(HereIsMemory)] + Bullets(notes);
        forall i | 0 <= i < |r.events|
          ensures !r.events[i].LookUp?
        {
          if i > 0 {
            assert r.events[i] == Bullets(notes)[i - 1];
          }
        }
      }
    }
  }

  /** A transcript with both "time" and "remember that" is a time query and stores nothing. */
  lemma TimeOutranksNote(cmd: string, env: Env, rows: seq<Row>)
    requires !IsExitCommand(cmd) && Contains(cmd, "time") && Contains(cmd, NoteTrigger)
    ensures HandleSpec(cmd, env, rows) == Reaction(HandledLocally, [Say(TimeAnnouncement(env.now))], rows)
  {
  }

  /** The time announcement is "Time is " followed by a 24-hour HH:MM reading of the clock. */
  lemma TimeAnnouncementFormat(now: LocalTime)
    ensures var a := TimeAnnouncement(now);
      && |a| == 13 && a[..8] == "Time is "
      && ParseHHMM(a[8..]) == Some(now)
  {
    var a := TimeAnnouncement(now);
    assert a[8..] == FormatHHMM(now);
    ParseFormat(now);
  }
}
