# CTF game daemon and services: verified models

The repository runs a Capture-The-Flag game: a daemon plants flags with every team's services, checks
them, accepts captures and keeps score, and a set of small network services is what the teams attack
and defend. This project models the daemon and the services whose logic is densest, in the form the
programs have themselves (classes whose methods change fields and arrays where the program does that,
functions where it only computes), and proves what they are meant to guarantee. `dafny verify
dfyconfig.toml` checks all of it.

**The game daemon** (`DaemonSteps`, `Ctfd`). Everything the daemon starts and does not wait for (a
database write, a lookup, a running check command) is a task under a ticket number, and a step is a
timer, the end of a command or lookup, a player's line, or the database carrying out one task. A run is
any sequence of possible steps, so theorems about runs cover every interleaving. `Discipline` names the
restrictions some theorems need, such as that the database keeps to the order of issue or that a team
never has two submissions of one flag under way. The classes in `Ctfd` are the daemon's objects; each handler is
proved to do exactly one step of the step system.

**Accounting** (`Ledger`, `Scoreboard`, `ScoreCurve`, `ScoreReport`, `Earnings`). The ledger replays what happened
in a run and books points as they are earned; the scoreboard object folds over the stored documents and
knows nothing of the run. The main theorem, `ScoreReport.ReportIsLedger`, says that after every run, in
whatever order the documents are read, both give every team the same points. `CaptureSafety`,
`AtMostOnce`, `DoubleCapture`, `CheckTimes`, `LateCapture` and `Rounds` say what the recorded captures,
checks and flags satisfy, show with concrete runs what goes wrong without a restriction, and prove
exactly when it does, for single steps and for whole runs. `UnderWay` says what a step starts and what it
cannot undo, `Origins` what the records owe to the events of a run, and `Earnings` how high a team's line is
at any time. `Steals` and `Aggregators` prove that the other scoreboard objects always agree; `ScoreCache`
does the cache with its waiting callers; `FlagCommands` does the check command and its decoys.

**The services.** `Message` and `MessageInt`: the SecretService message parser, the printer it undoes
and the 32-bit integer reader. `ClientLists`: TheQuotinator's two intrusive lists over one pool of
structs. `Forum` and `ForumRequest`: LeetPhorum's tables, the tree it builds from parent ids and the
user cache. `TicTacToeRules` and `TicTacToe`: the game, and the pairing of clients and games.
`IdIterators`: JabbaChat's id generator. `ArgTokens` and `LineSplit`: three ways of splitting a command
line into arguments. `GameTypes`, `Sequences`, `Tallies` and `Arithmetic` hold what several modules share.

Where code and description differ the code was followed. Flag names are always 15 characters long
(`lib/ctfd.js:316`; `Ctfd.CTFd.constructor` and `Ctfd.CTFd.PlantFlags`), not 10 to 15. The plotted curve
leaves out the plant points of a flag when they are not positive (`lib/scoreswebpage.js:446`), while the
table counts them; `ScoreReport.FinalTotalIsTablePoints` says exactly when the two agree. A team can be
listed twice for one flag, a check can be recorded as newer than a capture, and the success of a plant
command can be lost, when database operations overlap; `AtMostOnce.DoubleCaptureHappens`,
`LateCapture.LateCaptureHappens` and `Origins.SuccessCanBeLost` are runs in which this happens, and
`DoubleCapture.TwiceIffLate`, `LateCapture.LateIffOvertaken` and `Origins.DeliveredIffSavedFirst` give
the exact conditions for whole runs. Not everything the printer writes is read back, a message without
arguments for one (`Message.EmptyMessageRefused`); `Message.RoundTrip` says what is.

## Model

| member | source | states |
|---|---|---|
| `Ctfd.CTFd.constructor` | lib/ctfd.js:313-320 | the daemon starts in the initial state of the step system, with names of 15 and data of 64 characters |
| `Ctfd.CTFd.PlantFlags` | lib/ctfd.js:285-297 | the nested loops create and store one flag for each service and team in loop order and start its plant command, exactly the plant step of the step system, with names and data that are new, unlike each other and of the fixed lengths |
| `Ctfd.CTFd.OnPlanted` | lib/ctfd.js:219-229 | status 0 and no other marks the document as delivered, through one database operation |
| `Ctfd.CTFd.CheckFlags` | lib/ctfd.js:265-271 | the query for uncaptured flags is issued only once the plant commands' time limit is over, with the time of the round |
| `Ctfd.CTFd.OnUncaptured` | lib/ctfd.js:271-281 | one check command is started for each flag the query found, all with the time at which the round began |
| `Ctfd.CTFd.OnChecked` | lib/ctfd.js:230-246 | a finished check is recorded under the round's time, good exactly for status 0 |
| `Ctfd.CTFd.OnTeam` | lib/ctfd.js:325-338 | a connection takes the first known team name it is given and keeps it; the three replies tell which case applied |
| `Ctfd.CTFd.OnFlag` | lib/ctfd.js:339-345 | a flag is only looked up for a connection with a team |
| `Ctfd.CTFd.OnFound` | lib/ctfd.js:345-369 | own, already captured, inactive and unknown flags are refused with their reply codes; otherwise the capture is issued with the present time |
| `Ctfd.FlagFactory.CreateUniqueRandomString` | lib/flagfactory.js:30-46 | the first string drawn that is not taken; it has the length and alphabet asked for, and there is none only if all draws are taken |
| `Ctfd.SettledFresh` | lib/flagfactory.js:30-38 | whatever is drawn in a round, the strings settled on are what the plant step demands: none is taken, no two are alike, and all have the right form |
| `Ctfd.FlagFactory.CreateFlag` | lib/flagfactory.js:17-28 | a new flag, its name over letters and digits and its data over hexadecimal digits, is entered under both; neither was taken |
| `Ledger.StepKeepsOnce` | lib/ctfd.js:219-311 | in every step each flag is saved once and its plant command reports at most once |
| `Ledger.BookedAfterDeliver` | lib/ctfd.js:219-229 | a plant result moves the ledger and the worth of the documents by the same amount for every team |
| `Ledger.BookedAfterCheck` | lib/ctfd.js:230-246 | so does a recorded check |
| `Ledger.BookedAfterCapture` | lib/ctfd.js:354-357 | so does a capture: the capturer gains capture points and the first capture of a delivered flag takes back the owner's defend points |
| `Ledger.ListedPoints` | lib/scoreswebpage.js:595-599 | what the documents are worth does not depend on the order in which a cursor hands them out |
| `Ledger.AllRanksPush` | scripts/challenge.sh:12-12 | a rank pushed onto a challenge's document, new or not, counts for its team and for nobody else |
| `Ledger.BookedAfterSolve` | scripts/challenge.sh:12-12 | so it moves the ledger and the worth of the documents by the same amount |
| `UnderWay.StepCarries` | lib/ctfd.js:219-372 | no step drops work under way other than what it completes, and recorded captures and checks stay in their order |
| `UnderWay.StepStarts` | lib/ctfd.js:219-372 | every new task is one that the event asks for: results go with their status, captures with the team of the connection and the present time |
| `UnderWay.StepKeepsDoc` | lib/ctfd.js:219-311 | a document changes by a write to it, in the field that the write is about, and by nothing else |
| `Origins.EachReportsOnce` | lib/ctfd.js:285-297 | after every run the plant command of each flag is still running or has reported exactly once |
| `Origins.DeliveredMeansPlanted` | lib/ctfd.js:219-229 | after every run a delivered flag is one whose plant command exited with 0 |
| `Origins.DeliveredIffSavedFirst` | lib/ctfd.js:219-311 | when no plant result waits at the end of a run, the delivered flags are those whose plant command exited with 0, exactly if no success was recorded before its flag's document |
| `Origins.SuccessCanBeLost` | lib/ctfd.js:219-311 | with one team and one service the database can carry out a success before the document exists, and the flag stays undelivered |
| `Origins.DeliveredInIssueOrder` | lib/ctfd.js:219-311 | in the order of issue the delivered flags are exactly those whose plant command exited with 0 |
| `Origins.GoodChecksAreEnds` | lib/ctfd.js:230-246 | after every run the good checks of a flag, recorded or waiting, are as many as its check commands that exited with 0 |
| `Origins.CapturesWereSent` | lib/ctfd.js:325-357 | after every run each recorded capture was asked for by a flag line on a connection that had named the capturing team before |
| `Ledger.WorthIsLedger` | lib/ctfd.js:219-311 | after every run, for every team, the stored documents are worth exactly what replaying the run's writes books |
| `CaptureSafety.StepGood` | lib/ctfd.js:285-372 | no step of any interleaving breaks what captures, pending submissions and the clock satisfy |
| `CaptureSafety.RecordedCaptures` | lib/ctfd.js:339-369 | after every run each recorded capture is by a known team other than the owner, not before the flag's plant and not after any later plant |
| `AtMostOnce.StepKeepsSolo` | lib/ctfd.js:343-369 | a submission knows the list it will push to as long as its team has no other submission of that flag under way |
| `AtMostOnce.AtMostOneCapture` | lib/ctfd.js:343-369 | without overlapping submissions of one team each team is on each flag's list at most once |
| `AtMostOnce.OverlapCanCountTwice` | lib/ctfd.js:343-369 | whenever a connected team may capture a flag, sending it twice without waiting lets some schedule list the team twice |
| `AtMostOnce.DoubleCaptureHappens` | lib/ctfd.js:343-369 | such a double capture is reached from the initial state |
| `DoubleCapture.StepKeepsSole` | lib/ctfd.js:345-357 | no step lists a team twice as long as a lookup is accepted only for a team that is not on the list by then and has no push waiting |
| `DoubleCapture.LateAcceptBreaks` | lib/ctfd.js:345-357 | an acceptance that breaks this condition leaves the team on the list twice once the pushes are carried out |
| `DoubleCapture.ExactlyWhen` | lib/ctfd.js:343-369 | after any run in time, a lookup that comes back can lead to a double capture without any further late acceptance exactly if it is itself accepted too late |
| `DoubleCapture.StepKeepsDue` | lib/ctfd.js:345-357 | once a team is listed twice or the waiting pushes are about to list it twice, no step of any interleaving averts it |
| `DoubleCapture.TwiceIffLate` | lib/ctfd.js:343-369 | after every run some team is listed twice or about to be, exactly if some lookup of the run was accepted too late |
| `DoubleCapture.ListedTwiceIffLate` | lib/ctfd.js:343-369 | when no push waits at the end of a run, some team is listed twice exactly if some lookup was accepted too late |
| `DoubleCapture.OneInFlightIsInTime` | lib/ctfd.js:339-369 | a team that never has two submissions of one flag under way is never accepted too late |
| `CheckTimes.QueryInPlace` | lib/ctfd.js:269-281 | a query that overtakes no older capture of a flag it finds starts checks that are no newer than any capture to come |
| `CheckTimes.RecordedChecks` | lib/ctfd.js:230-283 | if no query overtakes such a capture, every recorded check lies after plant time plus time limit and no later than any capture of its flag |
| `CheckTimes.IssueOrderKeepsUp` | lib/ctfd.js:219-283 | when the database keeps to the order of issue no query overtakes a capture |
| `CheckTimes.ChecksInIssueOrder` | lib/ctfd.js:230-283 | so in order of issue every recorded check lies in that place |
| `LateCapture.OvertakingBreaks` | lib/ctfd.js:269-281 | a query that does overtake an older capture of a flag it finds can leave a check newer than that capture, whatever else the database holds |
| `LateCapture.ExactlyWhen` | lib/ctfd.js:265-283 | after any run without overtaking, a query can lead to a check newer than a capture without any further overtaking exactly if it overtakes an older capture itself |
| `LateCapture.LateIffOvertaken` | lib/ctfd.js:230-283 | after every run a check newer than a capture of its flag is recorded or under way, exactly if some query of the run overtook an older capture of a flag it found |
| `LateCapture.CheckAfterCaptureIffOvertaken` | lib/ctfd.js:230-283 | when no check and no capture is under way at the end of a run, a recorded check is newer than a capture exactly if some query overtook one |
| `LateCapture.QueryOvertakes` | lib/ctfd.js:265-281 | whenever a capture waits for the database, the next check round can be carried out before it |
| `LateCapture.LateCaptureHappens` | lib/ctfd.js:265-283 | a check newer than a capture of its flag is reached from the initial state when the database reorders operations |
| `Rounds.GridOnce` | lib/ctfd.js:289-296 | the nested loops visit each pair of a service and a team exactly once |
| `Rounds.OneFlagEach` | lib/ctfd.js:285-311 | a round whose plant time no other round shares leaves every team exactly one flag for every service, in every later state |
| `Rounds.FlagsUnlike` | lib/flagfactory.js:17-38 | no two flags of a run share their name or their data |
| `Scoreboard.ScoreOverTime.constructor` | lib/scoreswebpage.js:410-415 | a new scoreboard holds nothing and its time bounds are the extreme numbers |
| `Scoreboard.ScoreOverTime.Flag` | lib/scoreswebpage.js:421-482 | after each flag document every team's counters and point list are exactly what the documents so far say, and the time bounds are tight |
| `Scoreboard.ScoreOverTime.Challenge` | lib/scoreswebpage.js:484-502 | the same after each challenge document |
| `Scoreboard.ScoreOverTime.Data` | lib/scoreswebpage.js:504-546 | each team's line is the curve of all its points between the two time bounds and ends in their sum |
| `Earnings.EarnedUpTo` | lib/scoreswebpage.js:421-502 | up to any time the points plotted are those the documents' fields say were earned by then: positive plant points from the plant time on, good checks, own captures and own ranks |
| `Earnings.LineIsEarned` | lib/scoreswebpage.js:504-546 | so at any time a team's line is as high as what it had earned by then |
| `Scoreboard.ScoreOverTime.Table` | lib/scoreswebpage.js:548-560 | each team's points are what the documents are worth to it |
| `Scoreboard.RowWorth` | lib/scoreswebpage.js:552-556 | counting first and multiplying at the end gives what adding up document by document gives |
| `ScoreCurve.SortByTime` | lib/scoreswebpage.js:513-515 | any order by time of the same scores, however ties are broken |
| `ScoreCurve.Merge` | lib/scoreswebpage.js:517-527 | the accumulation loop yields one corner for each time in rising order, each holding the sum of all points up to then |
| `ScoreCurve.CurveUnique` | lib/scoreswebpage.js:513-527 | only one curve fits a collection of scores |
| `ScoreCurve.SameCurve` | lib/scoreswebpage.js:513-527 | the curve belongs to the collection of scores, not to their order |
| `ScoreCurve.CurveEnds` | lib/scoreswebpage.js:517-532 | the last corner is the total, and there is no corner only if there are no scores |
| `ScoreReport.FinalTotalIsTablePoints` | lib/scoreswebpage.js:446-556 | the curve's final total equals the table's points exactly when no plant of the team counts for less than nothing |
| `ScoreReport.NegativePlantDiffers` | lib/scoreswebpage.js:446-556 | with a negative deliver value one delivered flag is enough for the two to differ |
| `ScoreReport.UsualPointsAgree` | lib/scoreswebpage.js:446-556 | with non-negative deliver and defend points they are always equal |
| `ScoreReport.CornersInRange` | lib/scoreswebpage.js:427-428 | all corners lie between the two time bounds |
| `ScoreReport.TimesAre` | lib/scoreswebpage.js:427-499 | the two time bounds range over the times in the documents' fields and over no others |
| `ScoreReport.ReorderedScores` | lib/scoreswebpage.js:421-502 | a team's points do not depend on the order of the flag documents or of the challenge documents |
| `ScoreReport.SameLine` | lib/scoreswebpage.js:504-546 | neither the order of either kind of document nor tie-breaking changes a team's line |
| `ScoreReport.Generate` | lib/scoreswebpage.js:584-614 | the report is fed with all flag documents and then all challenge documents |
| `ScoreReport.Unmentioned` | lib/scoreswebpage.js:548-560 | a team without a table row has earned nothing |
| `ScoreReport.ReportIsLedger` | lib/scoreswebpage.js:548-560 | the table generated after any run gives every team the points the ledger booked for it |
| `Steals.CountsAreThefts` | lib/scoreswebpage.js:13-298 | every count of the aggregators is a count over one list of captures, each stolen by its team, lost by its flag's owner and counted for its flag's service |
| `Steals.StolenRowSum` | lib/scoreswebpage.js:204-210 | a team's row of steals adds up to all it has stolen |
| `Steals.LostRowSum` | lib/scoreswebpage.js:290-297 | a team's row of losses adds up to all it has lost |
| `Steals.StolenColumnSum` | lib/scoreswebpage.js:204-210 | a service's column of steals adds up to the captures of its flags |
| `Steals.LostColumnSum` | lib/scoreswebpage.js:290-297 | and so does its column of losses |
| `Steals.StolenTotal` | lib/scoreswebpage.js:104-112 | every capture is stolen by exactly one team |
| `Steals.LostTotal` | lib/scoreswebpage.js:102-102 | and lost by exactly one team |
| `Steals.ServiceTotal` | lib/scoreswebpage.js:13-18 | and counted for exactly one service |
| `Aggregators.StealsPerService.Flag` | lib/scoreswebpage.js:13-18 | the object holds the captures of every service met so far |
| `Aggregators.StealsPerService.Data` | lib/scoreswebpage.js:20-48 | exactly one bar for each service, side by side |
| `Aggregators.StealsLossesPerTeam.Flag` | lib/scoreswebpage.js:92-113 | the object holds what every team met so far has stolen and lost |
| `Aggregators.StealsLossesPerTeam.Data` | lib/scoreswebpage.js:115-171 | each team once, with its two bars and a gap of one slot |
| `Aggregators.StealsPerTeam.Flag` | lib/scoreswebpage.js:184-211 | the matrix stays full, team by service, and each entry is what the team has stolen from that service |
| `Aggregators.StealsPerTeam.Data` | lib/scoreswebpage.js:213-256 | each team has one group of bars, one for each service, with a gap of two, and no two bars share a position |
| `Aggregators.LossesPerTeam.Flag` | lib/scoreswebpage.js:269-298 | the matrix stays full and each entry is what the team has lost with that service |
| `Aggregators.LossesPerTeam.Data` | lib/scoreswebpage.js:300-342 | the same layout, without repetitions or collisions |
| `Aggregators.GroupsApart` | lib/scoreswebpage.js:213-234 | bars of different services or different teams never have the same x position |
| `Aggregators.StolenRowAgrees` | lib/scoreswebpage.js:184-211 | a team's row of steals has every service and adds up to all the team has stolen |
| `Aggregators.LostRowAgrees` | lib/scoreswebpage.js:269-298 | a team's row of losses has every service and adds up to all the team has lost |
| `Aggregators.StolenColumnAgrees` | lib/scoreswebpage.js:184-211 | a service's column of steals adds up to the service's bar |
| `Aggregators.LostColumnAgrees` | lib/scoreswebpage.js:269-298 | a service's column of losses adds up to the same bar |
| `Aggregators.TotalsAgree` | lib/scoreswebpage.js:13-113 | total stolen, total lost and total per service are all the number of captures |
| `Aggregators.TableAgrees` | lib/scoreswebpage.js:466-481 | the scoreboard's table has the same teams and its capture counters are what they have stolen |
| `Aggregators.Report` | lib/scoreswebpage.js:584-600 | for every sequence of flags the five objects fed with it, the scoreboard among them, agree in teams, services, rows, columns and totals |
| `ScoreCache.Scores.Generate` | lib/scoreswebpage.js:568-583 | one request: it starts a generation, joins the running one, or is answered from the cache |
| `ScoreCache.Scores.Complete` | lib/scoreswebpage.js:574-580 | a finished generation goes to the listeners registered at that moment |
| `ScoreCache.Scores.Expired` | lib/scoreswebpage.js:577-579 | the timer takes the result off offer |
| `ScoreCache.Scores.EmitResult` | lib/scoreswebpage.js:568-583 | each one-shot listener is removed and called once, in order |
| `ScoreCache.EmitAll` | lib/scoreswebpage.js:574-583 | emitting leaves nobody waiting, answers every caller with the result and settles the cache once |
| `ScoreCache.AnswerLater` | lib/scoreswebpage.js:568-583 | an answer once due never changes, and a waiting request is due the next result |
| `ScoreCache.Requests` | lib/scoreswebpage.js:562-566 | requests are told apart by the moment they arrive, in rising order |
| `ScoreCache.EveryRequestOnce` | lib/scoreswebpage.js:562-583 | every run answers its requests in order of arrival, each at most once and with what was due; at most one generation runs, exactly while requests wait |
| `ScoreCache.CachedIffTimer` | lib/scoreswebpage.js:562-583 | a result is cached exactly while one expiry timer is pending, and never while a generation runs |
| `ScoreCache.CacheServes` | lib/scoreswebpage.js:572-583 | until the timer fires every request after a result is answered with it at once and starts no generation |
| `ScoreCache.ExpiryRestarts` | lib/scoreswebpage.js:572-583 | once the timer has fired the next request starts a generation and waits for it |
| `FlagCommands.BadData` | lib/servicecommandexecuter.js:19-30 | the decoy's text differs from the flag's in exactly one position, which holds a hexadecimal digit |
| `FlagCommands.MakeCommands` | lib/servicecommandexecuter.js:43-53 | one genuine command and four decoys |
| `FlagCommands.ShuffleKeeps` | lib/servicecommandexecuter.js:54-55 | whatever order the shuffle gives, exactly one command is genuine and the others are decoys |
| `FlagCommands.FlagCheck.Complete` | lib/servicecommandexecuter.js:57-72 | the callback is called by the last command to end and by no other |
| `FlagCommands.RunCommands` | lib/servicecommandexecuter.js:56-75 | for every order of completion there is one call of the callback, with status 0 exactly if the genuine command ended with 0 and every decoy with something else |
| `FlagCommands.LineIsGenuine` | lib/servicecommandexecuter.js:61-67 | a successful check reports the genuine command's line, wherever it came in the order |
| `FlagCommands.FailureReported` | lib/servicecommandexecuter.js:61-73 | a failed check reports status and line of the last command to fail; for a decoy that is a false positive |
| `FlagCommands.CheckFlag` | lib/servicecommandexecuter.js:37-75 | from a flag's data to the one call of the callback, for every shuffle and every order of completion: four decoys, success exactly if the genuine command and no decoy succeeds, and then with the genuine command's line |
| `Message.MessageParser` | services/SecretService/src/message.c:17-67 | the parser loop reports the pairs and the end that the state machine defines |
| `Message.MsgEndIndex` | services/SecretService/src/message.c:69-71 | the length of the message at the start of the text, or -1 |
| `Message.ParsesMessage` | services/SecretService/src/message.c:17-67 | every text of the message format is parsed into exactly its pairs, in order, whatever text follows |
| `Message.AcceptsOnlyMessages` | services/SecretService/src/message.c:17-67 | whatever is accepted has the message format, and the pairs reported are its pairs |
| `Message.Framing` | services/SecretService/src/message.c:66-71 | a message can be cut off a stream: the rest does not matter and no shorter piece is a message |
| `Message.RoundTrip` | services/SecretService/ss_client.rb:30-34 | parsing undoes printing, whatever text follows, exactly if there is an argument, every key is legal and every value is escaped |
| `Message.OneArgument` | services/SecretService/src/message.c:17-67 | any text, once escaped, is read back as the value of any key that has no '=' after its first character and starts with neither ' ' nor '/' |
| `Message.EmptyMessageRefused` | services/SecretService/ss_client.rb:30-34 | a message without arguments is printed in a form the parser refuses |
| `MessageInt.IntParseCallbackData.Callback` | services/SecretService/src/message.c:79-104 | a pair with the key overwrites result and value with what its text means in wrapping arithmetic; any other pair changes nothing |
| `MessageInt.MsgParseInt` | services/SecretService/src/message.c:106-113 | the last pair with the key alone decides: its value is accepted exactly if it consists of digits but for a dash at the front, and is malformed otherwise; an incomplete message is reported as such |
| `MessageInt.WellFormedMeans` | services/SecretService/src/message.c:91-99 | the characters accepted are the ten digits, and a dash at the front |
| `MessageInt.HornerStep` | services/SecretService/src/message.c:94-96 | a digit multiplies by ten and adds its value; any other character changes nothing |
| `MessageInt.DecimalMeans` | services/SecretService/src/message.c:91-101 | the decimal text of an integer is well formed and means that integer |
| `MessageInt.IntRoundTrip` | services/SecretService/src/message.c:106-129 | every 32-bit integer printed in decimal is read back, the smallest included |
| `ClientLists.Server.constructor` | services/TheQuotinator/src/main.c:463-472 | at the start the free list is the whole pool and only the server socket is listened on |
| `ClientLists.Client.Serve` | services/TheQuotinator/src/main.c:368-388 | a client is to be let go exactly if it has closed with room left in its buffer, quits, or leaves its buffer full; a client that stays keeps what it has sent unless a command clears it |
| `ClientLists.Server.Accept` | services/TheQuotinator/src/main.c:328-358 | a connection takes the first free struct to the head of the active list, set up afresh, or is refused when there is none |
| `ClientLists.Server.HandleServer` | services/TheQuotinator/src/main.c:325-361 | of the waiting connections as many are taken as there are free structs, and both lists still partition the pool |
| `ClientLists.Server.Unlink` | services/TheQuotinator/src/main.c:393-404 | the current struct moves from the middle of the active list to the head of the free list; both lists stay chained, acyclic and disjoint |
| `ClientLists.Server.HandleClients` | services/TheQuotinator/src/main.c:363-410 | one pass visits every client active at its start exactly once and in order, keeps those that stay in order and moves the others, which closed, quit or filled their buffers, to the free list |
| `ClientLists.StayOrGo` | services/TheQuotinator/src/main.c:390-408 | a pass parts the clients: every one stays or goes, none does both |
| `ClientLists.WhoGoes` | services/TheQuotinator/src/main.c:390-408 | the clients that go are exactly those that leave |
| `ClientLists.WhoIsLetGo` | services/TheQuotinator/src/main.c:376-390 | in terms of the input: those that closed with room left, quit, or filled their buffer without a command that clears it |
| `ClientLists.SocketsDiffer` | services/TheQuotinator/src/main.c:345-348 | no two active clients share a socket and none has the server's |
| `Forum.Store.InsertUser` | services/LeetPhorum/src/index.php:95-103 | a user is added exactly if the name is new and is then found under its id; known posters stay known |
| `Forum.Store.AddPost` | services/LeetPhorum/src/index.php:161-169 | a stored post keeps ids growing, parents before replies and posters known |
| `Forum.ParentSmaller` | services/LeetPhorum/src/index.php:194-208 | a parent's id is smaller than its replies', so the recursion ends |
| `Forum.OccursInOnce` | services/LeetPhorum/src/index.php:49-68 | no post occurs twice in a delivered forest |
| `Forum.EveryPostOnce` | services/LeetPhorum/src/index.php:171-208 | a known post occurs once in a page exactly if its top post is on it, and otherwise not at all |
| `Forum.WholeForest` | services/LeetPhorum/src/index.php:171-208 | a page of all top posts holds every known post exactly once |
| `ForumRequest.PostToJson` | services/LeetPhorum/src/index.php:49-60 | the delivered tree is the tree of post objects |
| `ForumRequest.PostsToJson` | services/LeetPhorum/src/index.php:62-68 | one tree for each post, in order |
| `ForumRequest.Database.GetUserById` | services/LeetPhorum/src/index.php:114-128 | with or without the cache the answer is the users table's |
| `ForumRequest.Database.SearchUserCacheById` | services/LeetPhorum/src/index.php:105-112 | a cache hit is the users table's user, and a miss means no cached user has the id |
| `ForumRequest.Database.Authenticate` | services/LeetPhorum/src/index.php:79-93 | a log-in succeeds exactly for a stored name and password, and what it caches agrees with the table |
| `ForumRequest.Database.PopulatePost` | services/LeetPhorum/src/index.php:194-208 | ends, and leaves everything known below the post under it, each post under its stored parent and in time order, whatever order ties take and whatever is inserted meanwhile |
| `ForumRequest.Database.GetTopPosts` | services/LeetPhorum/src/index.php:171-192 | the page asked for of all top posts, newest first, each with everything known below it under its stored parent |
| `ForumRequest.Database.GetPosts` | services/LeetPhorum/src/index.php:252-257 | the delivered page is the page asked for and holds every known post at most once, exactly once if its top post is on it, and all of them if it has room for all top posts |
| `TicTacToeRules.PlaceKeeps` | services/TicTacToe/src/tttd.rb:91-106 | placing where the guards allow it either completes the mover's line or leaves a live position with the other player to move |
| `TicTacToeRules.RemoveKeeps` | services/TicTacToe/src/tttd.rb:75-85 | removing one of three tokens leaves a live position with the same player to move |
| `TicTacToeRules.AlwaysAMove` | services/TicTacToe/src/tttd.rb:306-329 | in every live position the player to move has a legal place or remove |
| `TicTacToeRules.OneWinner` | services/TicTacToe/src/tttd.rb:91-102 | only the player who has just placed can have a line |
| `TicTacToeRules.LineIsStraight` | services/TicTacToe/src/tttd.rb:62-69 | the eight lines are all there are: a token has one exactly if it holds three different fields on a straight line |
| `TicTacToe.TTTGame.HasTokenWon` | services/TicTacToe/src/tttd.rb:62-69 | finds a line exactly if the token holds three different fields on a straight line |
| `TicTacToe.TTTGame.CountToken` | services/TicTacToe/src/tttd.rb:21-27 | how many of the nine fields hold the token |
| `TicTacToe.TTTGame.PlaceToken` | services/TicTacToe/src/tttd.rb:91-112 | a placed token ends the game for both players or passes the turn in a live position |
| `TicTacToe.TTTGame.RemoveToken` | services/TicTacToe/src/tttd.rb:75-89 | a removed token keeps the game live and the turn |
| `TicTacToe.TTTGame.Disconnected` | services/TicTacToe/src/tttd.rb:114-119 | the opponent of the player who left has no game any more |
| `TicTacToe.TTTServer.PlayAgainst` | services/TicTacToe/src/tttd.rb:262-277 | a game starts exactly between two different registered clients without games, no other game changes, and every game still has its two registered players |
| `TicTacToe.TTTServer.PlaceCommand` | services/TicTacToe/src/tttd.rb:306-317 | the guards and the move keep all games live and all pairs intact, for every command |
| `TicTacToe.TTTServer.RemoveCommand` | services/TicTacToe/src/tttd.rb:318-329 | the same for remove |
| `TicTacToe.TTTServer.HandleCommand` | services/TicTacToe/src/tttd.rb:279-334 | play, place and remove do what they do for a client that has logged in, quit marks the client, no other command touches a game, no client's state changes but to disconnecting, and none breaks the pairing or a live position |
| `TicTacToe.TTTServer.Unregister` | services/TicTacToe/src/tttd.rb:418-426 | a client that leaves takes its opponent out of their game and touches no other client's game or state |
| `TicTacToe.TTTServer.RemoveDisconnecting` | services/TicTacToe/src/tttd.rb:414-428 | the loop ends with no disconnecting client registered; only clients that were disconnecting, or whose opponent left, are gone, and the others keep their state and every game but those of clients that left |
| `IdIterators.IdIterator.constructor` | services/JabbaChat/component/lib/iditerator.js:1-4 | a missing or empty alphabet means the default one |
| `IdIterators.IdIterator.Next` | services/JabbaChat/component/lib/iditerator.js:10-24 | the n-th call since the last reset returns the n-th id |
| `IdIterators.IdIterator.Count` | services/JabbaChat/component/lib/iditerator.js:11-22 | the carry loop adds one |
| `IdIterators.IdIterator.Current` | services/JabbaChat/component/lib/iditerator.js:26-33 | the digits as text, most significant first |
| `IdIterators.IdIterator.Reset` | services/JabbaChat/component/lib/iditerator.js:6-8 | counting starts over |
| `IdIterators.NextRepresentation` | services/JabbaChat/component/lib/iditerator.js:10-22 | one step takes the bijective base-k representation of n to that of n + 1 |
| `IdIterators.IdEndsWith` | services/JabbaChat/component/lib/iditerator.js:26-33 | the last character of an id counts fastest, and what is before it is an earlier id |
| `IdIterators.RepresentationOfValue` | services/JabbaChat/component/lib/iditerator.js:10-33 | digits and numbers correspond one to one |
| `IdIterators.EveryString` | services/JabbaChat/component/lib/iditerator.js:10-33 | every non-empty string over the alphabet is handed out by some call |
| `IdIterators.CallOfId` | services/JabbaChat/component/lib/iditerator.js:10-33 | with distinct characters it is handed out by no other call |
| `IdIterators.NoRepeats` | services/JabbaChat/component/lib/iditerator.js:10-33 | no id ever repeats exactly if the characters of the alphabet are distinct |
| `LineSplit.NextRange` | services/WhereAmI/src/whereami.c:181-204 | finds the next argument of the rest of the line, or none, reading only inside the buffer |
| `LineSplit.CountRanges` | services/WhereAmI/src/whereami.c:211-214 | the first pass counts the arguments of the line |
| `LineSplit.Fill` | services/WhereAmI/src/whereami.c:217-230 | the second pass, though it cuts up the buffer it scans, finds the same arguments and every write is in range |
| `LineSplit.Split` | services/WhereAmI/src/whereami.c:206-235 | each pointer leads to the argument the original line defines, as a C string, and a null pointer ends them |
| `LineSplit.CountArgs` | services/WhereAmI/src/whereami.c:425-431 | the number of pointers before the null pointer |
| `LineSplit.LikeRuby` | services/WhereAmI/src/whereami.c:181-204 | the arguments are those the TicTacToe service finds, without the text after a quote that is never closed |
| `LineSplit.ArgumentsOfLine` | services/WhereAmI/src/whereami.c:181-204 | words end at white space, quoted pieces at the next quote, and a quote that is never closed ends the line |
| `ArgTokens.ParseArgsJava` | services/GraphicusMaximus/src/GraphicusMaximus.java:243-272 | the three-state loop returns the words and quoted pieces of the line |
| `ArgTokens.ParseArgsRuby` | services/TicTacToe/src/tttd.rb:130-160 | so does this one, with more characters taken as white space |
| `ArgTokens.JavaLine` | services/GraphicusMaximus/src/GraphicusMaximus.java:243-272 | spaces and tabs separate, a word goes up to one of them or to the end, a quoted piece up to the next quote or to the end |
| `ArgTokens.RubyLine` | services/TicTacToe/src/tttd.rb:130-160 | the same with the six characters of white space |
| `ArgTokens.QuotedRoundTrip` | services/GraphicusMaximus/src/GraphicusMaximus.java:243-272 | quoting arguments and joining them with spaces is undone by tokenizing exactly if no argument holds a quote, empty ones included |
| `ArgTokens.SameArguments` | services/TicTacToe/src/tttd.rb:130-160 | both tokenizers agree exactly on the lines whose white space outside quotes is spaces and tabs |
| `ArgTokens.SpacesAndTabs` | services/TicTacToe/src/tttd.rb:130-160 | in particular on every line whose only white space is spaces and tabs |

## Left out

- Sockets, HTTP, the database drivers, child processes, timers, packet capture and kernel hooks: they are the events of the models, with every order of events that is possible.
- The web pages, templates and chart options, the check clients, `lib/userdataparser.js`, `find_author` and the other services.
- Names that every JavaScript object inherits, such as `constructor`, used for a team, service or flag: the objects used as dictionaries are modelled as maps.
- A daemon restarted over a database that already holds flags: every run starts with empty collections.
- A clock that is set back: the daemon's clock may stand still but not run backwards.
- `lib/flag.js` and the command templates: a flag is its name, data, team and service, and a command is told apart only by the data it checks.
- Ctfd.CTFd.OnChecked: the delay of 500 ms is part of the step in which the check command ends, because the result is queued for the database either way.
- Ctfd.CTFd.OnUncaptured: a find cursor is read in one step, because the driver's batches are not visible to the daemon.
- Ctfd.FlagFactory.CreateUniqueRandomString: ends with the draws it is given instead of drawing until a fresh string turns up, because termination there is a matter of chance.
- Ctfd.FlagFactory.CreateFlag: needs draws that hold a new name and new data, for the same reason.
- FlagCommands.BadData: takes the random numbers as arguments and needs one that changes the text, for the same reason.
- `TotalFlagSteals` (`lib/scoreswebpage.js:50-82`) counts exactly as `StealsLossesPerTeam` does; `CumulativeSteals` sorts time stamps as text and promises nothing that could be proved for all of them.
- ScoreReport.Generate: a database error ends the original's generation without a result; `ScoreCache` has no such event, so its answers are those of generations that end.
- ScoreReport.ReportIsLedger: flags and challenges are taken from one state of the database, while the program reads one collection after the other as the game goes on.
- ScoreCache.Scores.Generate: the listener limit only makes the emitter print a warning, and the length of the timer does not matter to the protocol.
- Message.MessageParser: the message is the text before the NUL, and reads of key and value slices stay inside it.
- MessageInt.IntParseCallbackData.Callback: signed overflow wraps, as the program's own test of -2147483648 expects, although C leaves it undefined.
- ClientLists.Client.Serve: a command is reduced to its effect on the buffer and on the two flags of the struct, and one pass of reads is what the socket delivers in that pass.
- ClientLists.Server.HandleServer: a connection that is taken has a descriptor not in use, as the kernel guarantees; descriptors of refused connections may come again. The select set's size is not bounded.
- Forum.Store.AddPost: a reply is only stored under a post that exists, because the program fetches the parent first; MySQL's comparison of names is taken as equality of text.
- TicTacToe.TTTServer.HandleCommand: the texts sent, `to_i` and the files exchanged with the user service; a send that fails only marks its client as disconnecting.
- LineSplit.NextRange: for a line that fills the buffer the original looks one byte past it; that byte can be anything here and makes no difference.
- ArgTokens.ParseArgsRuby: the pattern for white space includes the vertical tab, as in current versions of the language.
