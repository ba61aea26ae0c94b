# THIRU hybrid assistant: the command pipeline

A model of the command pipeline of the THIRU voice assistant
(`thiru_hybrid.py`), without its audio, speech, network and database
engines. It has three parts.

- **Memory store** (`Memory`). One table of `(category, content)` rows,
  appended to by `remember` and read by `recall` in table (rowid) order. It is
  the class `MemoryStore`, whose `rows: seq<Row>` field the methods update in
  place. The specification function `Select` says what a recall returns.
- **Command router** (`Router`). `offline_brain` and `handle` as the methods
  `OfflineBrain` and `Handle`. They behave as specified by the functions
  `OfflineSpec` and `HandleSpec`. The spoken and printed output is an event
  log:
  - `Say(t)` is `speak(t)`: the console echo plus speech.
  - `Print(t)` is a console line.
  - `Probe` is the connectivity check.
  - `LookUp(q)` is the knowledge lookup.

  The rules are tried in a fixed order and the first match wins: sleep/exit,
  time, "remember that", "what do you remember", "python",
  "machine learning"/"ml", "sad"/"broken". After them comes the online
  keyword branch, and last the "I am listening." filler. `RuleTable` is
  this order written as a table, and `HandleRulePriority` proves that the
  if-chain of the source picks the first matching entry.
- **Main loop** (`Assistant`). The `__main__` block, split into `Run` (the
  outer wait for the wake phrase) and `Converse` (the inner `handle` loop).
  Both are proved against the Dormant/Awake machine `Step`/`Drive`. The
  transcripts that `listen()` would return come in as a finite sequence.

The outside world comes in as values. Each transcript travels with an
`Env`, which holds:
- the probe result;
- the clock reading (`LocalTime`, an hour and a minute);
- the lookup answer (`Some(summary)`, or `None` when `online_info` would
  fall into its `except` branch and return the fixed failure text).

`Clock` models `strftime`'s `%H:%M` as `FormatHHMM`, with a parser as its
inverse. `Text` models Python's `in` as `Contains`, and `str.replace(p, "")`
as `RemoveAll`. `RemoveAll` is characterised through `Split`/`Join`.
`Scenarios` works through the example utterances: the time query, the
sky-is-blue note, the president question with and without a connection,
"ml" matching inside "html", upper-case input, and a wake-then-sleep run.

Behaviours of the code that a reader might not expect, all modelled as
written:
- Every substring test is case-sensitive. This includes the wake phrase
  test (`WAKE_WORD in text`) and the command tests; nothing is lower-cased.
  `ShoutingIsNotUnderstood` shows the consequence.
- The spoken time text starts with "Time is ", followed by `HH:MM`.
- The note stored for "remember that …" is the transcript with every
  occurrence of the phrase removed, wherever it occurs. The leading space
  is kept.
- The probe is consulted whenever `offline_brain` declines, before the
  keyword scan, as `online() and any(...)` does. This shows as the `Probe`
  event heading both fall-through outcomes.

## Model

| member | source | states |
|---|---|---|
| Memory.Select | thiru_hybrid.py:31-33 | The contents of the rows whose category matches, in table (rowid) order, each row contributing its content once. |
| Memory.MemoryStore.Open | thiru_hybrid.py:16-25 | Opening the table keeps exactly the rows it already holds. |
| Memory.MemoryStore.Remember | thiru_hybrid.py:27-29 | The table afterwards is the old table with the row (category, text) appended. |
| Memory.MemoryStore.Recall | thiru_hybrid.py:31-33 | Returns the contents of the rows with that category in table order, and a content is returned iff its row is in the table. |
| Memory.MemoryStore.RecallTwice | thiru_hybrid.py:31-33 | Recall changes nothing, so two recalls in a row return identical results. |
| Memory.SelectUnwritten | thiru_hybrid.py:31-33 | A category never written recalls the empty sequence. |
| Memory.SelectAppend | thiru_hybrid.py:27-33 | Appending a row adds its content at the end of its own category and leaves every other category unchanged. |
| Memory.SelectConcat | thiru_hybrid.py:27-33 | A recall over two stretches of rows is the recall over the first followed by the recall over the second. |
| Memory.SelectMembership | thiru_hybrid.py:31-33 | t is recalled under c iff the row (c, t) is in the table. |
| Memory.TwoWritesInOrder | thiru_hybrid.py:27-33 | After writing t1 then t2 under c, recall(c) ends with [t1, t2] in that order. |
| Memory.TwoWritesOnFreshCategory | thiru_hybrid.py:27-33 | On a category no row carries yet, writing t1 then t2 makes recall(c) exactly [t1, t2]. |
| Text.Contains | thiru_hybrid.py:80 | Python's `p in s`: there is an index at which `p` occurs in `s`; case-sensitive, as every test of the router is. |
| Text.ContainsAny | thiru_hybrid.py:138 | Python's `any(x in s for x in ps)`: some phrase of the list occurs in `s`. |
| Text.RemoveAll | thiru_hybrid.py:85 | `s.replace(p, "")`: drops every occurrence of `p`, found left to right without overlap, and keeps every other character in order. |
| Text.CharAbsent | thiru_hybrid.py:80 | A phrase that has a character absent from the transcript does not occur in it. |
| Text.NotContainsSplit | thiru_hybrid.py:80 | A phrase that occurs neither in a prefix nor in an overlapping suffix does not occur at all. |
| Text.ContainsTail | thiru_hybrid.py:80 | An occurrence in the tail of a string is an occurrence in the string. |
| Text.RemoveAllWithoutOccurrence | thiru_hybrid.py:85 | Removing a phrase that does not occur leaves the string unchanged. |
| Text.RemoveAllLeading | thiru_hybrid.py:85 | A leading occurrence is dropped and removal goes on with the rest. |
| Text.Split | thiru_hybrid.py:85 | Splitting on the phrase always yields at least one piece. |
| Text.JoinExtendFirst | thiru_hybrid.py:85 | Extending the first piece extends the joined string at its front. |
| Text.SplitJoinRoundTrip | thiru_hybrid.py:85 | Joining the pieces with the phrase gives back the original string. |
| Text.SplitConcatIsRemoveAll | thiru_hybrid.py:85 | The string with the phrase removed is the pieces joined with nothing between them. |
| Text.SplitFirstIsPrefix | thiru_hybrid.py:85 | The first piece is a prefix of the string. |
| Text.SplitPiecesAvoid | thiru_hybrid.py:85 | No piece contains the phrase. |
| Text.RemoveAllCharacterised | thiru_hybrid.py:85 | `replace(p, "")` drops exactly the occurrences between pieces that do not contain p, and keeps every other character in order. |
| Clock.DigitChar | thiru_hybrid.py:81 | A digit value renders as a decimal digit character of that value. |
| Clock.DigitValue | thiru_hybrid.py:81 | A digit character reads as a value below ten that renders back to it. |
| Clock.TwoDigits | thiru_hybrid.py:81 | A number below 100 renders as exactly two digits whose value is the number. |
| Clock.FormatHHMM | thiru_hybrid.py:81 | `%H:%M` is five characters: two digits, a colon, two digits. |
| Clock.ParseHHMM | thiru_hybrid.py:81 | Reads a five-character `HH:MM` string with hour below 24 and minute below 60 back into a clock reading, and nothing else. |
| Clock.ParseFormat | thiru_hybrid.py:81 | Every clock reading renders to a string that reads back as the same time. |
| Clock.FormatParse | thiru_hybrid.py:81 | Every string that reads as a time is the rendering of that time, so the format is one-to-one. |
| Router.IsExitCommand | thiru_hybrid.py:129 | The `"sleep" in cmd or "exit" in cmd` test. |
| Router.OfflineRule | thiru_hybrid.py:79-124 | The rule offline_brain runs: the first of time, "remember that", "what do you remember", "python", "machine learning"/"ml", "sad"/"broken" whose test holds, or none. |
| Router.HandleRule | thiru_hybrid.py:127-135 | The rule handle runs before falling through: sleep/exit if that test holds, otherwise the rule of offline_brain. |
| Router.NoteText | thiru_hybrid.py:85 | The note stored: the transcript with every "remember that" removed. |
| Router.TimeAnnouncement | thiru_hybrid.py:81 | What `strftime("Time is %H:%M")` gives for a clock reading. |
| Router.OnlineInfo | thiru_hybrid.py:71-76 | `online_info`: the summary when the lookup answers, else "I could not find clear information online.". |
| Router.Respond | thiru_hybrid.py:80-122 | What each rule body says, prints and writes: the farewell, the time, the note write, the note listing, the two snippets, the comfort line. |
| Router.OfflineSpec | thiru_hybrid.py:79-124 | offline_brain: True with the matching rule's output and table, or False with no output and the table unchanged. |
| Router.HandleSpec | thiru_hybrid.py:127-144 | handle: Exit on sleep/exit; else the offline result; else, after the probe, the online lookup when connected and a keyword occurs; else "I am listening.". |
| Router.Bullets | thiru_hybrid.py:93-94 | One `- note` console line per note, in order. |
| Router.PrintNotes | thiru_hybrid.py:93-94 | The print loop emits exactly one `- note` line per note, in stored order. |
| Router.AnyKeyword | thiru_hybrid.py:138 | The keyword scan answers true iff some keyword occurs in the transcript. |
| Router.OfflineBrain | thiru_hybrid.py:79-124 | Whether offline_brain handled the transcript, its output and the table afterwards are exactly those OfflineSpec prescribes. |
| Router.Handle | thiru_hybrid.py:127-144 | The decision, output and table afterwards are exactly those HandleSpec prescribes. |
| Router.FirstMatch | thiru_hybrid.py:79-131 | The rule picked from the table is one whose phrases occur in the transcript. |
| Router.FirstMatchPicksEarliest | thiru_hybrid.py:79-131 | Table entry k is picked iff one of its phrases occurs and no phrase of an earlier entry does. |
| Router.FirstMatchNone | thiru_hybrid.py:79-131 | Nothing is picked iff no phrase of any entry occurs. |
| Router.ContainsAnyOne | thiru_hybrid.py:138 | `any` over one phrase is the test for that phrase. |
| Router.ContainsAnyTwo | thiru_hybrid.py:110 | A test joined by `or` over two phrases is `any` over both. |
| Router.HandleRuleFollowsTable | thiru_hybrid.py:79-131 | The if-chain of handle and offline_brain picks the same rule as the first match over the rule table. |
| Router.HandleRulePriority | thiru_hybrid.py:79-131 | The rule of handle is rule k iff one of k's phrases occurs and none of an earlier rule's does; there is no rule iff no phrase of any rule occurs. |
| Router.ExitComesFirst | thiru_hybrid.py:129-131 | A transcript containing "sleep" or "exit" anywhere only says the farewell and exits, with no table write. |
| Router.DecisionCases | thiru_hybrid.py:127-144 | Exit iff sleep/exit occurs; local iff it does not and an offline rule matches; online iff no rule matches, the probe is true and a keyword occurs; otherwise the filler. |
| Router.OnlyNotesWrite | thiru_hybrid.py:84-87 | The table gains exactly one row ("note", transcript with "remember that" removed) when the note rule fires, and is unchanged otherwise. |
| Router.TakeNoteStores | thiru_hybrid.py:84-87 | The note rule acknowledges, appends its note last under "note" and leaves every other category unchanged. |
| Router.NoteOfPlainRequest | thiru_hybrid.py:85 | "remember that" followed by text without the phrase stores that text exactly, its leading space included. |
| Router.ListNotesReports | thiru_hybrid.py:89-97 | "what do you remember" leaves the table unchanged; it says "I don't remember anything yet." iff there are no notes, else announces and prints each note in stored order. |
| Router.OfflineDeclines | thiru_hybrid.py:79-124 | offline_brain returns False iff none of its eight phrases occurs, and then it has said nothing and changed nothing. |
| Router.FallThrough | thiru_hybrid.py:134-144 | With no rule matching, the probe is checked; online and a keyword means checking online, looking up the transcript and saying the answer; else "I am listening.". |
| Router.LookUpOnlyOnline | thiru_hybrid.py:137-142 | The lookup is called iff the decision is online handling, and always with the whole transcript. |
| Router.TimeOutranksNote | thiru_hybrid.py:80-87 | A transcript with both "time" and "remember that" is answered with the time and stores nothing. |
| Router.TimeAnnouncementFormat | thiru_hybrid.py:81 | The time announcement is "Time is " followed by an HH:MM string that reads back as the clock reading. |
| Assistant.Step | thiru_hybrid.py:150-156 | One transcript: Dormant wakes with "I am here." iff the wake phrase occurs, Awake hands it to handle and moves to Exited on Exit, Exited ignores it. |
| Assistant.Drive | thiru_hybrid.py:150-156 | The machine over a sequence of transcripts, stopping at the end of the input or once Exited. |
| Assistant.Boot | thiru_hybrid.py:147-156 | The whole program: the start-up announcement, then the machine from Dormant. |
| Assistant.FirstWake | thiru_hybrid.py:150-152 | Gives the first transcript containing the wake phrase, or the end if none does. |
| Assistant.DormantUntilWake | thiru_hybrid.py:150-156 | While Dormant nothing is routed, spoken or stored; at the first wake transcript "I am here." is said once, and the machine goes on Awake with the transcripts after it. |
| Assistant.AwakeExitsIff | thiru_hybrid.py:154-156 | Awake, the run exits iff some transcript contains "sleep" or "exit", and otherwise stays Awake. |
| Assistant.ExitDecision | thiru_hybrid.py:129-131 | handle decides Exit iff the transcript contains "sleep" or "exit". |
| Assistant.NothingAfterExit | thiru_hybrid.py:129-131 | Transcripts heard after the exit change neither the output nor the table. |
| Assistant.OnlyNotesAdded | thiru_hybrid.py:147-156 | Over a whole run the table only grows, and every row added is a note. |
| Assistant.AwakeStep | thiru_hybrid.py:154-156 | An Awake step handles one transcript, then stops on Exit or goes on with the next. |
| Assistant.Converse | thiru_hybrid.py:154-156 | The inner loop's final state, output and table are those of the Awake machine over its transcripts. |
| Assistant.Run | thiru_hybrid.py:147-156 | The program's output starts with the start-up announcement, and its state, output and table are those of the announcement followed by the machine from Dormant. |
| Scenarios.WhatTimeIsIt | thiru_hybrid.py:80-82 | "what time is it" is answered with "Time is HH:MM" and handled locally. |
| Scenarios.SkyAvoidsTime | thiru_hybrid.py:80 | Helper step of a scenario lemma, not a model of its own: "time" does not occur in "remember that the sky is blue". |
| Scenarios.SkyAvoidsEarlyPhrases | thiru_hybrid.py:80-131 | Helper step of a scenario lemma, not a model of its own: none of "sleep", "exit", "time" occurs in "remember that the sky is blue". |
| Scenarios.RememberSkyIsBlue | thiru_hybrid.py:84-87 | "remember that the sky is blue" stores " the sky is blue" under "note" and is handled locally. |
| Scenarios.PresidentAvoidsEarlyPhrases | thiru_hybrid.py:80-131 | Helper step of a scenario lemma, not a model of its own: none of "sleep", "exit", "time", "remember that" occurs in "who is the president". |
| Scenarios.PresidentAvoidsTopicPhrases | thiru_hybrid.py:89-118 | Helper step of a scenario lemma, not a model of its own: none of the listing, python or learning phrases occurs in "who is the president". |
| Scenarios.PresidentMatchesNoRule | thiru_hybrid.py:79-131 | No rule applies to "who is the president". |
| Scenarios.PresidentWhileOffline | thiru_hybrid.py:137-144 | With the probe false, "who is the president" is not looked up and gets "I am listening.". |
| Scenarios.PresidentWhileOnline | thiru_hybrid.py:137-142 | With the probe true, "who is the president" is looked up as a whole and the answer spoken. |
| Scenarios.HtmlAvoidsEarlyPhrases | thiru_hybrid.py:80-131 | Helper step of a scenario lemma, not a model of its own: none of "sleep", "exit", "time", "remember that" occurs in "who made html". |
| Scenarios.HtmlCountsAsMl | thiru_hybrid.py:110-118 | "ml" is a plain substring test: "who made html" prints the learning steps, even with "who" in it and a connection available. |
| Scenarios.ShoutAvoidsExitAndNotes | thiru_hybrid.py:80-131 | Helper step of a scenario lemma, not a model of its own: none of the sleep, exit, time or note phrases occurs in "WHAT TIME IS IT". |
| Scenarios.ShoutAvoidsTopics | thiru_hybrid.py:99-122 | Helper step of a scenario lemma, not a model of its own: none of the topic or sentiment phrases occurs in "WHAT TIME IS IT". |
| Scenarios.ShoutAvoidsOnlineKeywords | thiru_hybrid.py:138 | Helper step of a scenario lemma, not a model of its own: no online keyword occurs in "WHAT TIME IS IT". |
| Scenarios.ShoutingIsNotUnderstood | thiru_hybrid.py:127-144 | The tests are case-sensitive: "WHAT TIME IS IT" gets the filler, whatever the probe says. |
| Scenarios.WakeThenSleep | thiru_hybrid.py:147-156 | A command before the wake phrase is ignored. The wake utterance is acknowledged once and its command is not routed. "go to sleep" then says the farewell and exits. |

## Left out

- Audio capture, the frame queue and the Vosk recogniser (thiru_hybrid.py:44-60) are device input and a callback on another thread. `listen()` is replaced by the input sequence of transcripts.
- pyttsx3 speech output and its rate setting (thiru_hybrid.py:35-42) are a device. `speak(t)` is the `Say(t)` event, which stands for both the "THIRU: " console echo and the speech.
- The HTTP connectivity check and the Wikipedia lookup (thiru_hybrid.py:62-76) are network calls. The probe result is `Env.online` and the lookup answer is `Env.answer`. A `None` answer models any exception, which gives the fixed "could not find" text. The language setting and the two-sentence summary length are not modelled.
- `datetime.now()` (thiru_hybrid.py:81) reads the clock. The reading is the input `Env.now`; only its `%H:%M` formatting is modelled.
- SQLite durability and persistence across restarts (thiru_hybrid.py:16-25) cannot be verified. `MemoryStore.Open` takes the rows a previous run left, and the auto-increment id is the row's position. A failing write raises out of `handle` and ends the program; the model has no failure path.
- `exit()` (thiru_hybrid.py:131) ends the process. It is modelled as the `Exit` decision and the `Exited` state.
- Assistant.Run: when the transcripts run out, the source would block forever in `listen()`. The model returns the state reached instead (Dormant or Awake).
- Memory.MemoryStore.Recall: `recall` returns one-element row tuples, and the print loop takes `m[0]` from each. The model returns the content strings directly. The query has no `ORDER BY`; the model assumes the rows come back in table (rowid) order, which is how SQLite scans this unindexed table but which the query does not guarantee.
