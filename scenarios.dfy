/**
 * Worked transcripts: what the router and the main loop do with particular
 * utterances, including the quirks of plain case-sensitive substring tests.
 */
module Scenarios {
  import opened Optional
  import opened Text
  import opened Memory
  import opened Router
  import opened Assistant

  /** "what time is it" announces the clock as HH:MM and is handled locally. */
  lemma WhatTimeIsIt(env: Env, rows: seq<Row>)
    ensures HandleSpec("what time is it", env, rows)
         == Reaction(HandledLocally, [Say(TimeAnnouncement(env.now))], rows)
  {
    var s := "what time is it";
    CharAbsent(s, "sleep", 1);
    CharAbsent(s, "exit", 1);
    assert MatchesAt(s, "time", 5);
  }

  const Sky: string := "remember that the sky is blue"

  /** "remember t", the first ten characters, has no 'i'. */
  lemma SkyHeadAvoidsTime()
    ensures !Contains(Sky[..10], "time")
  {
    assert Sky[..10] == "remember t";
    CharAbsent("remember t", "time", 1);
  }

  /** "r that the sky is blue", from index 7 on, has no 'm'. */
  lemma SkyTailAvoidsTime()
    ensures !Contains(Sky[7..], "time")
  {
    assert Sky[7..] == "r that the sky is blue";
    CharAbsent("r that the sky is blue", "time", 2);
  }

  /** "time" is not in it, though each of its letters is. */
  lemma SkyAvoidsTime()
    ensures !Contains(Sky, "time")
  {
    SkyHeadAvoidsTime();
    SkyTailAvoidsTime();
    NotContainsSplit(Sky, "time", 7);
  }

  lemma SkyAvoidsEarlyPhrases()
    ensures !Contains("remember that the sky is blue", "sleep")
    ensures !Contains("remember that the sky is blue", "exit")
    ensures !Contains("remember that the sky is blue", "time")
  {
    var s := "remember that the sky is blue";
    CharAbsent(s, "sleep", 4);
    CharAbsent(s, "exit", 1);
    SkyAvoidsTime();
  }

  /** "remember that the sky is blue" stores " the sky is blue" (leading space kept) as a note. */
  lemma RememberSkyIsBlue(env: Env, rows: seq<Row>)
    ensures HandleSpec("remember that the sky is blue", env, rows)
         == Reaction(HandledLocally, [Say(WillRemember)], rows + [(NoteCategory, " the sky is blue")])
  {
    var s := "remember that the sky is blue";
    SkyAvoidsEarlyPhrases();
    assert MatchesAt(s, NoteTrigger, 0);
    CharAbsent(" the sky is blue", NoteTrigger, 2);
    NoteOfPlainRequest(" the sky is blue");
  }

  lemma PresidentAvoidsEarlyPhrases()
    ensures !Contains("who is the president", "sleep") && !Contains("who is the president", "exit")
    ensures !Contains("who is the president", "time") && !Contains("who is the president", NoteTrigger)
  {
    var s := "who is the president";
    CharAbsent(s, "sleep", 1);
    CharAbsent(s, "exit", 1);
    CharAbsent(s, "time", 2);
    CharAbsent(s, NoteTrigger, 2);
  }

  lemma PresidentAvoidsTopicPhrases()
    ensures !Contains("who is the president", "what do you remember") && !Contains("who is the president", "python")
    ensures !Contains("who is the president", "machine learning") && !Contains("who is the president", "ml")
  {
    var s := "who is the president";
    CharAbsent(s, "what do you remember", 2);
    CharAbsent(s, "python", 1);
    CharAbsent(s, "machine learning", 0);
    CharAbsent(s, "ml", 0);
  }

  /** No phrase of any rule occurs in "who is the president". */
  lemma PresidentMatchesNoRule()
    ensures HandleRule("who is the president") == None
  {
    var s := "who is the president";
    PresidentAvoidsEarlyPhrases();
    PresidentAvoidsTopicPhrases();
    CharAbsent(s, "sad", 1);
    CharAbsent(s, "broken", 0);
  }

  /** Without a connection, "who is the president" is not looked up and gets the filler. */
  lemma PresidentWhileOffline(env: Env, rows: seq<Row>)
    requires !env.online
    ensures HandleSpec("who is the president", env, rows)
         == Reaction(Unhandled, [Probe, Say(Listening)], rows)
  {
    PresidentMatchesNoRule();
  }

  /** With a connection, the whole transcript is looked up and the answer spoken. */
  lemma PresidentWhileOnline(env: Env, rows: seq<Row>)
    requires env.online
    ensures HandleSpec("who is the president", env, rows)
         == Reaction(HandledOnline,
                     [Probe, Say(CheckingOnline), LookUp("who is the president"), Say(OnlineInfo(env.answer))],
                     rows)
  {
    PresidentMatchesNoRule();
    assert MatchesAt("who is the president", "who", 0);
    assert Contains("who is the president", OnlineKeywords[0]);
  }

  lemma HtmlAvoidsEarlyPhrases()
    ensures !Contains("who made html", "sleep") && !Contains("who made html", "exit")
    ensures !Contains("who made html", "time") && !Contains("who made html", NoteTrigger)
  {
    var s := "who made html";
    CharAbsent(s, "sleep", 0);
    CharAbsent(s, "exit", 1);
    CharAbsent(s, "time", 1);
    CharAbsent(s, NoteTrigger, 0);
  }

  /** "ml" is a plain substring: "who made html" prints the learning steps, even when online. */
  lemma HtmlCountsAsMl(env: Env, rows: seq<Row>)
    ensures HandleSpec("who made html", env, rows)
         == Reaction(HandledLocally, [Say(MlAck), Print(MlSnippet)], rows)
  {
    var s := "who made html";
    HtmlAvoidsEarlyPhrases();
    CharAbsent(s, "what do you remember", 12);
    CharAbsent(s, "python", 0);
    assert MatchesAt(s, "ml", 11);
  }

  lemma ShoutAvoidsExitAndNotes()
    ensures !Contains("WHAT TIME IS IT", "sleep") && !Contains("WHAT TIME IS IT", "exit")
    ensures !Contains("WHAT TIME IS IT", "time") && !Contains("WHAT TIME IS IT", NoteTrigger)
    ensures !Contains("WHAT TIME IS IT", "what do you remember")
  {
    var s := "WHAT TIME IS IT";
    CharAbsent(s, "sleep", 0);
    CharAbsent(s, "exit", 0);
    CharAbsent(s, "time", 0);
    CharAbsent(s, NoteTrigger, 0);
    CharAbsent(s, "what do you remember", 0);
  }

  lemma ShoutAvoidsTopics()
    ensures !Contains("WHAT TIME IS IT", "python") && !Contains("WHAT TIME IS IT", "machine learning")
    ensures !Contains("WHAT TIME IS IT", "ml") && !Contains("WHAT TIME IS IT", "sad")
    ensures !Contains("WHAT TIME IS IT", "broken")
  {
    var s := "WHAT TIME IS IT";
    CharAbsent(s, "python", 0);
    CharAbsent(s, "machine learning", 0);
    CharAbsent(s, "ml", 0);
    CharAbsent(s, "sad", 0);
    CharAbsent(s, "broken", 0);
  }

  lemma ShoutAvoidsOnlineKeywords()
    ensures !ContainsAny("WHAT TIME IS IT", OnlineKeywords)
  {
    var s := "WHAT TIME IS IT";
    CharAbsent(s, "who", 0);
    CharAbsent(s, "what", 0);
    CharAbsent(s, "search", 0);
    CharAbsent(s, "explain", 0);
    CharAbsent(s, "latest", 0);
  }

  /** The tests never lower-case: "WHAT TIME IS IT" matches nothing, not even the online "what". */
  lemma ShoutingIsNotUnderstood(env: Env, rows: seq<Row>)
    ensures HandleSpec("WHAT TIME IS IT", env, rows)
         == Reaction(Unhandled, [Probe, Say(Listening)], rows)
  {
    ShoutAvoidsExitAndNotes();
    ShoutAvoidsTopics();
    ShoutAvoidsOnlineKeywords();
  }

  lemma WakeSequencePhrases()
    ensures !Contains("what time is it", WakeWord)
    ensures Contains("hey thiru what time is it", WakeWord)
    ensures IsExitCommand("go to sleep")
  {
    CharAbsent("what time is it", WakeWord, 2);
    assert MatchesAt("hey thiru what time is it", WakeWord, 0);
    assert MatchesAt("go to sleep", "sleep", 6);
  }

  /**
   * Dormant, a command is ignored; the wake phrase is acknowledged once
   * (a command in the same utterance is not routed); then "sleep" ends it.
   */
  lemma WakeThenSleep(e1: Env, e2: Env, e3: Env, rows: seq<Row>)
    ensures Boot([Heard("what time is it", e1), Heard("hey thiru what time is it", e2), Heard("go to sleep", e3)], rows)
         == Outcome(Exited, [Say(Greeting), Say(Acknowledge), Say(Farewell)], rows)
  {
    var inputs := [Heard("what time is it", e1), Heard("hey thiru what time is it", e2), Heard("go to sleep", e3)];
    WakeSequencePhrases();
    assert FirstWake(inputs[1..]) == 0;
    assert FirstWake(inputs) == 1;
    DormantUntilWake(inputs, rows);
    assert inputs[2..] == [Heard("go to sleep", e3)];
    ExitComesFirst("go to sleep", e3, rows);
    assert Drive(Awake, inputs[2..], rows) == Outcome(Exited, [Say(Farewell)], rows);
  }
}
