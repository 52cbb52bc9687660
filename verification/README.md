# Scheduled agents: verified models

The repository runs a set of cron jobs and pollers: they post articles, consume marketplace
notifications, draft replies, answer comments, flag odd markets and prune logs. What each job may do
depends on small pieces of state that have to survive re-runs, duplicates, refusals and crashes. This
project models those pieces in Dafny and proves what they promise, over every input, every run and every
schedule. Model calls, gates, clocks and network results are arbitrary inputs: each appears as a value
chosen by the environment (`Fate`, `Trial`, `Answer`, `Reply`, `Move` and so on), so a theorem about all
of them covers every answer the outside world can give.

Where the original changes state step by step, the model is a class or a method with loops, and its
`ensures` clause ties it to a function of the old state. Lemmas about that function state the property.
Times are integers in seconds, UTC days are integers, an ordered Python dict is a sequence of entries or
a key order with a map, and a counter dict whose values are only summed is a multiset.

| Files | Part |
|---|---|
| Evergreen, EvergreenWait, EvergreenThreads | the queue of archive posts: order, one run, bounded wait, threads per cooldown |
| Syndication, PostingCaps, PostingOverlap | the feed run: one thread per item, settling, state guard; caps per run and day, and that they are met |
| Marketplace, MarketplaceOrder, MarketplaceConsumer, MarketplaceMeaning | one notification and one subscriber row; what the order of delivery decides; the at-least-once queue protocol; what a message's JSON does to a row |
| Decisions | the registry of open drafts beside its append-only log |
| RadarClaims, Radar, RadarLaws, RadarRuns, RadarCaps, RadarCapsMet, RadarMeaning | the reply radar: claim window, one run, its account, sequences of runs, their caps, and that these are met; each step in terms of its fields |
| CommentGate, Ambassador, AmbassadorLaws, AmbassadorRuns, AmbassadorRefusals, AmbassadorDays, AmbassadorReplies | the comment run: allowance, outcomes; replies, refusals and days over all runs; whom it answers |
| Invitations, Repetition | the paged notification read; the rule against repeated comments |
| Moltguard | volume spikes: how many markets one scan can flag |
| DigestWrap | greedy line breaking with a mark for a shortened last line |
| NumberWords | number words: combiner and letter-stream tokenizer |
| Retention | freeze, roll up, prune, beside the traffic monitor |
| Common, StableSort | filtering, distinctness, the stable sort behind `sorted` |

## Where the code and its description part

Each of these is a lemma below; the model follows the code.

- A notification of unknown shape is promised to be stored. The handler reaches a log line that names a
  label never assigned, the transaction is rolled back and the error ends the process, and so does a
  payload that is JSON but no object (`MarketplaceConsumer.WhatEndsTheProcess` gives exactly these messages).
- Delivery order decides the end of a row exactly when licence events bring it different agreements, when
  two events that can each come out last disagree, or when an event that would decide it can come before
  the licence event it needs and be missed (`MarketplaceOrder.OrderMatters`). An event that comes early
  counts as if it had never been sent (`MarketplaceOrder.EarlyAsIfNeverSent`), so an agreement that ended
  can stay active (`MarketplaceOrder.CancelledStaysActive`).
- A thread of the feed run whose count cannot be written after it went out goes out again
  (`Syndication.ThreadsAreCounted` says exactly how often, `Syndication.SecondThread` shows it).
- An archive post goes out again whenever its thread did not reach the register file: because counting or
  mirroring it raised an error, or because the write failed, which is only logged. It also goes out again
  when the register is torn, or is read as empty and written over
  (`EvergreenThreads.EvergreenThreadsAreCounted` and `EvergreenThreads.OncePerCooldown` are exact;
  `EvergreenThreads.GoesOutAgain` and `EvergreenThreads.SentTwice` show each case).
- k processes that overlap can bring a UTC day to 3 + k threads although the cap is four, and no further
  (`PostingCaps.ThreadsPerDay`, `PostingOverlap.OverlapReachesBound`).
- An evergreen run whose only draft was refused can exit 0 as if no post had a figure
  (`Evergreen.BlockReportedAsOk` says when, `Evergreen.RefusedRunExitsOk` shows it).
- A run that dies before it writes its state forgets what it sent, and one that breaks off while writing
  leaves a file that reads as empty, so that everything before it is forgotten too. A comment is then
  answered again, and six comments a day, three drafts a day and 48 hours between claims hold only for what
  is on record. `AmbassadorRuns.RepliesAreCounted` is exact, `AmbassadorDays.DailyCapHolds`,
  `RadarRuns.ClaimsStayApart` and `RadarCaps.DraftsStayUnderCaps` say what still holds, and these show that
  no more does: `AmbassadorRuns.SecondReply`, `AmbassadorRuns.TornFileAnswersAgain`,
  `AmbassadorDays.DeadRunBreaksCap`, `AmbassadorDays.TornFileBreaksCap`, `RadarRuns.DeadRunDraftsAgain`,
  `RadarRuns.TornFileDraftsAgain`, `RadarCapsMet.DeadRunBreaksCap`, `RadarCapsMet.TornFileBreaksCap`.
- Drafts are booked on the day their run began, so a run across midnight can add to the next calendar day
  (`RadarCaps.DraftsPerDate`, `RadarCapsMet.SixOverMidnight`).
- Version numbers repeat exactly when a version follows a torn one of the same open entry, or when the
  draft had left the list and came back, by a question or a second registration (`Decisions.VersionsAreNumbered`; `Decisions.TornVersionRepeats` and
  `Decisions.AskAfterCloseRestartsNumbers` show one each).
- A card line is marked as shortened although no word is missing when the text holds surplus white space
  (`DigestWrap.MarkMeaning`, `DigestWrap.TrailingSpaceIsMarked`).
- With the minimum sample of ten no market can be flagged for its volume (`Moltguard.TenNeverSpike`).
- A dry run of the reply radar writes state. It saves the claims its drafts used, which blocks real drafts
  for 48 hours (`RadarRuns.SpentClaimBlocks`), and when it does not get to drafting it moves the start of
  the next window past posts nobody read (`RadarRuns.DryRunWrites`, `RadarRuns.DryRunHidesPost`).
- A notification listing that is not newest first can be read as complete and miss an invitation
  (`Invitations.OutOfOrderMisses`).

## Model

| member | source | states |
|---|---|---|
| Evergreen.CandidatesKeepStandingOrder | agents/syndicate.py:880-898 | The queue is the due posts in one fixed order (priority rank, then oldest), the deferred ones moved behind all others with that order kept. |
| Evergreen.CandidatesDistinct | agents/syndicate.py:880-898 | A feed without repeats gives a queue without repeats. |
| Evergreen.WhoIsTried | agents/syndicate.py:600-608 | Tried are exactly the posts of the feed that nobody removed and that went out 90 days ago or more, or never; three blocks defer one. |
| Evergreen.StandingMeans | agents/syndicate.py:892-898 | The standing order goes by rank, and posts of one rank stand oldest first. |
| Evergreen.RankMeans | agents/syndicate.py:895-898 | A trailing slash makes no difference to the rank, and unnamed posts share the last one. |
| Evergreen.RegisterMeans | agents/syndicate.py:1120-1225 | What a run leaves in a post's entry for each way its draft can end; at most two posts are drafted. |
| Evergreen.ExitMeans | agents/syndicate.py:1256-1276 | The exit status, exactly, from how the last draft ended. |
| Evergreen.EvergreenQueue.Run | agents/syndicate.py:1256-1276 | The loop leaves the register, the drafted posts and the exit status that the walk over the queue defines. |
| Evergreen.WalkDrafts | agents/syndicate.py:1256-1265 | A run drafts the first post with a figure, and after a block the second; only drafted entries change, each as its fate says. |
| Evergreen.WalkCode | agents/syndicate.py:1258-1276 | When the last word of a walk is "no figure": exact condition on the posts tried. |
| Evergreen.BlockReportedAsOk | agents/syndicate.py:1266-1276 | A run with only refused drafts exits 0 if and only if one due post had a figure, it was blocked, and the walk ended on a post without one. |
| Evergreen.RefusedRunExitsOk | agents/syndicate.py:1256-1276 | Two posts for which that happens: one refused, one without a figure. |
| EvergreenWait.RunEffect | agents/syndicate.py:1120-1225 | What an undisturbed run does to any one post: it keeps its place and its refusals unless drafted, a posted one leaves the line, a refused one stays while it has tries left. |
| EvergreenWait.RunTakesFromLine | agents/syndicate.py:1256-1265 | A run that does not reach the target drafts one post ahead of it and posts it, or drafts two. |
| EvergreenWait.LineAfter | agents/syndicate.py:1120-1276 | Such a run keeps the target in line, and the line ahead of it is as before but for the one or two posts it drafted. |
| EvergreenWait.RunShortens | agents/syndicate.py:629-657 | Such a run lowers by at least one the number of runs the line ahead can still keep the target waiting. |
| EvergreenWait.BoundedWait | agents/syndicate.py:880-898 | Bounded wait: fixed feed, one cooldown, every draft blocked or posted; with p posts of its kind ahead, a due, not deferred post with a figure is drafted within 2p + 1 runs if p is even, 2p if odd. |
| EvergreenWait.WaitIsSharp | agents/syndicate.py:1256-1265 | The bound is met for every p above zero: some feed and some such runs, one fewer than the bound, leave the target undrafted. |
| EvergreenThreads.EvergreenThreadsAreCounted | agents/syndicate.py:1188-1203 | Over any scheduled runs of one cooldown, whatever feed, gate, network and disk did: threads of a post plus its record at the start equal its unrecorded threads plus the times its record was lost plus its record at the end. |
| EvergreenThreads.OncePerCooldown | agents/syndicate.py:579-608 | A post goes out at most once in 90 days, and not at all if it went out shortly before, if and only if at most one of these occurs: an unrecorded thread, a lost record, a record at the end. |
| EvergreenThreads.GoesOutAgain | agents/syndicate.py:1188-1203 | A post whose thread is not recorded, for whichever reason each time, goes out in every run. |
| EvergreenThreads.SentTwice | agents/syndicate.py:368-374 | Two threads of one post on one day with no count lost: after an error in the mirror, a refused write, a torn register, and an unreadable register. |
| Syndication.Syndicate.Run | agents/syndicate.py:1303-1357 | One run leaves exactly the specified state for every feed, every unreadable counter read and every outcome. |
| Syndication.RunOnceEffect | agents/syndicate.py:1312-1355 | What one run does to any one item: tried only if unsettled, attempts counted, settled stays settled, and a calm attempt at or past the third settles. |
| Syndication.WhatSettles | agents/syndicate.py:1003-1068 | Exactly when a run settles an open item: archived, a counted thread, held unarmed, or a third failed attempt. |
| Syndication.WhatIsSeen | agents/syndicate.py:1003-1068 | Exactly which items a run adds to the list of those seen. |
| Syndication.OpenBelowThree | agents/syndicate.py:1041-1046 | No item is given up early: with only failures and fewer than three attempts in all it is still open, over any runs. |
| Syndication.TriedAgain | agents/syndicate.py:1311-1357 | And the next run over a feed in which it alone is open and fresh tries it again. |
| Syndication.StatusMeans | agents/syndicate.py:1003-1068 | The status an attempt leaves, for each way it can end. |
| Syndication.EndMeans | agents/syndicate.py:1303-1357 | Exactly how a run ends: empty feed, halt, crash, nothing new, or work done. |
| Syndication.ThreadsAreCounted | agents/syndicate.py:1044-1068 | Over all runs, threads of an item equal the threads whose count failed plus one if its status became posted or partial. |
| Syndication.AtMostOnce | agents/syndicate.py:1044-1068 | If no count after a thread failed, an item gets at most one thread, and exactly one when its status changed to posted or partial. |
| Syndication.SecondThread | agents/syndicate.py:1059-1061 | A concrete pair of runs in which a failed count lets the same item out twice. |
| Syndication.SettledAfterThree | agents/syndicate.py:1003-1048 | Undisturbed attempts on one item number at most three over all runs, and the third leaves it settled. |
| Syndication.SettledStays | agents/syndicate.py:1311-1316 | A settled item stays settled and gets no further thread. |
| Syndication.OldestFirst | agents/syndicate.py:1320-1357 | A run that gets to the items tries one if and only if one is open and fresh, and over a newest-first feed it is the oldest such. |
| Syndication.NextGuardHalts | agents/syndicate.py:484-497 | After a run that ends normally the next state guard halts if and only if the run added items and dropped more repeats than it added. |
| Syndication.SizeGuardNeverHalts | agents/syndicate.py:484-497 | From a `seen` list without repeats, after any runs with any ending, the size guard never halts. |
| PostingCaps.PostingGuards.PostGuard | agents/syndicate.py:500-512 | One more post is allowed exactly under both caps with a readable counter and an open breaker. |
| PostingCaps.PostingGuards.DropOldest | agents/syndicate.py:521-524 | Dropping all but the last fourteen sorted keys keeps exactly the days with fewer than fourteen later ones. |
| PostingCaps.PostingGuards.NotePost | agents/syndicate.py:515-525 | The process counts its post even when the file cannot be written; the file then stays as it was. |
| PostingCaps.TodayIsKept | agents/syndicate.py:521-524 | The count just written survives the trimming if and only if fewer than fourteen later days stand in the file. |
| PostingCaps.ThreadsPerDay | agents/syndicate.py:500-525 | With at most k processes between guard and count, also across midnight, a UTC day sees at most 3 + k threads beyond those whose count was lost; one at a time gives four. |
| PostingOverlap.OverlapReachesBound | agents/syndicate.py:500-525 | For every k, from an empty counter, some run with never more than k processes in flight and no lost count makes 3 + k threads that day. |
| PostingCaps.ThreadsPerRun | agents/syndicate.py:500-518 | Whatever overlaps, fails or dies, one process sends at most two threads. |
| Marketplace.RowEndsAtGreatest | app/aws_marketplace.py:305-419 | After any sequence of committed events a row carries the first event with the greatest time among those that found it, or its own later state; without times, the last one. |
| MarketplaceOrder.UncontestedConverges | app/aws_marketplace.py:305-419 | For any row, with or without an agreement, and any events: any two orders of the same events end the same unless the row is contested. |
| MarketplaceOrder.ContestedDiverges | app/aws_marketplace.py:305-419 | A contested row ends differently in two orders of the same events. |
| MarketplaceOrder.OrderMatters | app/aws_marketplace.py:305-419 | Some other order ends differently if and only if the row is contested: two agreements, two events that can each decide it and disagree, or a deciding event that can be missed. |
| MarketplaceOrder.FixedAgreementContest | app/aws_marketplace.py:331-342 | For a row whose agreement is fixed, contested means two latest events with one time and different verdicts. |
| MarketplaceOrder.EarlyAsIfNeverSent | app/aws_marketplace.py:378-419 | Over whole histories whose licence events name one agreement for the row, an event that comes before the licence event it needs counts as never sent, and all others count as if the row had carried the agreement from the start. |
| MarketplaceOrder.LicenceFirst | app/aws_marketplace.py:378-419 | With the licence event ahead of everything that needs it, a row ends as one that carried the agreement all along. |
| MarketplaceOrder.EarlyAgreementIsMissed | app/aws_marketplace.py:378-419 | One early event and its licence event: the order makes no difference if and only if the early one would have changed nothing afterwards. |
| MarketplaceOrder.CancelledStaysActive | app/aws_marketplace.py:378-419 | So a subscription whose later end arrives before its licence stays active. |
| Marketplace.StatusNames | app/aws_marketplace.py:64-77 | Each of the four names of the table keeps its meaning whatever role follows it. |
| Marketplace.RoleIsIgnored | app/aws_marketplace.py:72-77 | The role makes no difference for any name, and any name outside the table has no status. |
| Marketplace.BlanksAreIgnored | app/aws_marketplace.py:76 | Blanks around a name make no difference. |
| Marketplace.WrappedOrRaw | agents/mp_subscription_consumer.py:151-206 | A payload says the same wrapped in an envelope or delivered raw, up to its id and its time. |
| MarketplaceMeaning.NotificationMeans | app/aws_marketplace.py:80-85 | For every message and row: subscribe-success, subscribe-fail, unsubscribe-pending and unsubscribe-success make the customer's row of that product active, failed, cancelling and cancelled, with the message's time, unless the row has a later one; any other action or customer leaves it. |
| MarketplaceMeaning.AnnouncementMeans | app/aws_marketplace.py:346-419 | For every event and row: the four names make the buyer's row active, cancelled, cancelled and pending if the event names its agreement or licence and no other product; a licence event first writes its agreement onto a row without one. |
| MarketplaceMeaning.OtherAnnouncements | app/aws_marketplace.py:72-77 | An event without a name, of another name, or without a buyer moves no row. |
| MarketplaceMeaning.RepeatChangesNothing | agents/mp_subscription_consumer.py:229-251 | A message whose event is in the ledger changes nothing and may be deleted. |
| MarketplaceConsumer.Consumer.ApplyEvent | app/aws_marketplace.py:305-419 | All rows are updated as the statements do, and the number of matched rows is returned. |
| MarketplaceConsumer.Consumer.HandleMessage | agents/mp_subscription_consumer.py:209-288 | Ledger and rows change together or not at all; which messages may be deleted, stay, or end the process. |
| MarketplaceConsumer.Consumer.PollOnce | agents/mp_subscription_consumer.py:291-308 | A batch is handled in order up to the message the process dies on; only deletable messages leave the queue. |
| MarketplaceConsumer.ScheduleIsSafe | agents/mp_subscription_consumer.py:209-308 | For every schedule of arrivals, duplicates, reorderings and crashes: a deleted message has its ledger row, an event id takes effect once, no event of unknown shape is recorded, rows end as the committed events say. |
| MarketplaceConsumer.SchedulesConverge | agents/mp_subscription_consumer.py:209-308 | Two schedules that commit the same events leave every uncontested row the same, rows without an agreement included. |
| MarketplaceConsumer.SchedulesDiverge | agents/mp_subscription_consumer.py:209-308 | For every contested row there are two schedules that commit the same events and leave it different. |
| MarketplaceConsumer.WhatEndsTheProcess | agents/mp_subscription_consumer.py:171-288 | Exactly which messages end the process, and that nothing of them is kept. |
| MarketplaceConsumer.WhatStays | agents/mp_subscription_consumer.py:218-223 | Exactly which messages stay on the queue untouched. |
| MarketplaceConsumer.DeletableMeans | agents/mp_subscription_consumer.py:291-308 | A poll deletes exactly the messages of its batch that were handled to their end. |
| MarketplaceConsumer.DeletedIsRecorded | agents/mp_subscription_consumer.py:229-288 | What may be deleted stands in the ledger. |
| Decisions.DraftsAreConserved | agents/reply_decisions.py:106-154 | In every reachable state, crashes after any log line included, a registered draft is open or has a closing line, and none has two. |
| Decisions.SweepTakesOverdue | agents/reply_decisions.py:389-420 | A sweep takes an open draft if and only if it walks over it and its clock has run out; the others are untouched. |
| Decisions.SweepMeans | agents/reply_decisions.py:389-420 | A sweep takes exactly the walked drafts that were asked over twelve hours ago, or were neither asked nor commented on, are past their own end and were not offered within a day; the lines say dropped "ohne Grund" and expired without a reason. |
| Decisions.UntouchedExpires | agents/reply_decisions.py:389-420 | Over any calls that leave a registered draft alone, it is open until the first sweep over a day after its registration, which closes it as expired. |
| Decisions.UnansweredDrops | agents/reply_decisions.py:389-420 | Over any calls that leave an asked draft alone, it is open until the first sweep over twelve hours after the question, which drops it without a reason. |
| Decisions.FeedbackKeeps | agents/reply_decisions.py:284-299 | A draft with feedback and no question stays open over any sweeps. |
| Decisions.CallMeans | agents/reply_decisions.py:199-358 | What each call does to the entry of any draft and to the log. |
| Decisions.FeedbackSurvivesSweeps | agents/reply_decisions.py:404-405 | A draft with feedback and no question about a reason survives every sweep. |
| Decisions.VersionsAreNumbered | agents/reply_decisions.py:314-346 | Over whole histories, the version lines of a draft read 1, 2, 3 and on if and only if no new version follows a torn one of the same open entry, or finds its draft back on the list, by a question or a second registration, with numbers already given. |
| Decisions.VersionsCloseNothing | agents/reply_decisions.py:314-346 | No version line, torn or not, closes a draft. |
| Decisions.TornVersionRepeats | agents/reply_decisions.py:336-346 | A crash between the version lines and the open list makes the next version repeat a number. |
| Decisions.AskAfterCloseRestartsNumbers | agents/reply_decisions.py:349-358 | A question about a closed draft makes its version numbers start again. |
| Decisions.ReportsAdd | agents/reply_decisions.py:425-440 | Reports over adjacent intervals add up to the report over both. |
| Decisions.ReasonsCoverDiscards | agents/reply_decisions.py:437-438 | The counts of the reasons add up to the discards. |
| Decisions.ReportCountsDrafts | agents/reply_decisions.py:429-436 | With one closing line each, a report counts drafts, each once. |
| Decisions.LineCounts | agents/reply_decisions.py:425-440 | What one line adds to a report: one of three counts, and for a discard its reason or "ohne Grund". |
| Decisions.DecisionRegistry.Append | agents/reply_decisions.py:147-154 | The line is added if and only if the draft has no closing line yet. |
| Decisions.DecisionRegistry.Close | agents/reply_decisions.py:230-243 | The draft leaves the list and gets its line unless it has one; the result says which. |
| Decisions.DecisionRegistry.RecordVersion | agents/reply_decisions.py:314-346 | The new lines and the number of a version, the first one's line included when it is missing. |
| Decisions.DecisionRegistry.CloseDue | agents/reply_decisions.py:389-420 | The loop takes exactly those drafts, writes for each the line its clock gives unless one stands, and reports a draft if and only if it wrote its line. |
| Decisions.DecisionRegistry.Summary | agents/reply_decisions.py:425-440 | The loop counts the closing lines of the interval. |
| RadarClaims.DraftKeepsSpacing | agents/reply_radar.py:715-759 | A draft without a conflict at the run's start, recorded at any later time, is 48 hours after every earlier use of its claims, and the book still covers all uses. |
| RadarClaims.RememberCovers | agents/reply_radar.py:750-759 | Pruning on writing never loses a use that still counts. |
| RadarClaims.OnlyRecentUsesClash | agents/reply_radar.py:670-712 | A draft is withheld if and only if a claim of it is blocked by hand or was used less than 48 hours before the run. |
| RadarClaims.RememberMeans | agents/reply_radar.py:750-759 | What the book says after a draft: its claims used now, the others as long as they count. |
| Radar.ReplyRadar.SelectCandidates | agents/reply_radar.py:1112-1143 | A read post is a candidate if and only if it is new, not ours, not from before the window, no retweet, with words, no advertisement, and in English, in no known language or on our subject; each drop reason counts exactly the posts its fields decide. |
| Radar.ReplyRadar.LapseRest | agents/reply_radar.py:2197-2203 | Every post past the cap is counted as lapsed and, outside a dry run, marked seen. |
| Radar.ReplyRadar.Run | agents/reply_radar.py:2125-2307 | A run, paused, full, without candidates or drafting, leaves the state, counts, reasons and drafts the specification gives. |
| RadarLaws.ByViewsIsOrdered | agents/reply_radar.py:1210-1226 | The drafting order is a permutation with most views first; ties keep tier and source order. |
| RadarLaws.TiesKeepReadingOrder | agents/reply_radar.py:1210-1226 | Posts of one tier, source and view count stay in reading order. |
| RadarLaws.VisitAccounts | agents/reply_radar.py:2205-2286 | One turn of the loop accounts for one post, by a draft or a reason; the gate's own reason keeps counting the drafts it refused, and no earlier draft is lost. |
| RadarLaws.DraftsAnswerWorthwhile | agents/reply_radar.py:1112-1143 | Every draft answers a post read in this run that meets all of these conditions. |
| RadarRuns.SentAnswersOthers | agents/reply_radar.py:1125-1143 | Over any runs no draft answers our own post, a retweet, a post without words, an advertisement, or one in a foreign language off our subject. |
| RadarMeaning.TurnMeans | agents/reply_radar.py:2205-2286 | One turn: author's cap of two a day and one a run beyond mentions, then the drafter's answer, then the claims; exactly which reason, draft, and settling follow. |
| RadarMeaning.BookMeans | agents/reply_radar.py:834-838 | A sent draft counts once for its day and its author, and earlier days go. |
| RadarMeaning.OrderMeans | agents/reply_radar.py:1210-1226 | Of two posts the one with more views comes first, of equals the better tier, of these list before mention before search. |
| RadarMeaning.RoomMeans | agents/reply_radar.py:2145-2147 | Room is what is asked and what the day leaves of three. |
| RadarMeaning.WindowMeans | agents/reply_radar.py:842-860 | The window starts four hours back at first, then half an hour before the last run and never more than fifteen hours back. |
| RadarMeaning.EndMeans | agents/reply_radar.py:2127-2307 | When a run notes its time, the list id and the prompt's row. |
| RadarLaws.RunAccounts | agents/reply_radar.py:2184-2301 | Candidates equal drafts plus all reasons except the gate's; the gate's reason counts exactly the refused drafts; drafts never exceed the room. |
| RadarLaws.LapsedHaveFewerViews | agents/reply_radar.py:2193-2204 | No lapsed post has more views than a drafted one, and posts lapse only when the room is used up. |
| RadarLaws.OneDraftPerAuthor | agents/reply_radar.py:762-775 | In a run no draft for a named author follows another one unless it answers a mention. |
| RadarLaws.SettledPostsDoNotReturn | agents/reply_radar.py:826-830 | A post drafted or lapsed in a real run is dropped as seen by the next. |
| RadarRuns.ClaimsStayApart | agents/reply_radar.py:670-759 | Over any runs in time order, the gate-passing drafts of any run, however it ends, and of the completed runs before it since the state file was last torn stay 48 hours apart where they share a claim. |
| RadarRuns.DeadRunDraftsAgain | agents/reply_radar.py:2286-2307 | A run that dies after a draft lets the next one draft the same post with the same claim again. |
| RadarRuns.TornFileDraftsAgain | agents/reply_radar.py:282-295 | So does a state file torn between two completed runs. |
| RadarCaps.DraftsStayUnderCaps | agents/reply_radar.py:762-838 | Over any runs in time order, by the day a run began: at most three drafts, and two per named author beyond answers to mentions, plus those of runs that wrote no state and those counted in a torn file. |
| RadarCaps.DraftsPerDate | agents/reply_radar.py:762-838 | By the day a draft was sent: at most six, three if no run was under way at the midnight before, plus those of runs that wrote no state and those counted in a torn file. |
| RadarCapsMet.SixOverMidnight | agents/reply_radar.py:826-838 | One run over midnight and one after it send six drafts on one date. |
| RadarCapsMet.DeadRunBreaksCap | agents/reply_radar.py:2286-2307 | A run that dies after n drafts and a completed one make 3 + n on one day. |
| RadarCapsMet.TornFileBreaksCap | agents/reply_radar.py:282-295 | A full run before and one after a torn file make six on one day. |
| RadarRuns.DryRunWrites | agents/reply_radar.py:2127-2181 | A dry run books no draft and marks no post, but writes the list id, the prompt counts and the claims of passed drafts, and the start of the next window if and only if it does not get to drafting. |
| RadarRuns.DryRunHidesPost | agents/reply_radar.py:842-860 | When a dry run makes a later run drop a post as too old: exactly if it did not get to drafting and the post lies before the window that it leaves. |
| RadarRuns.DryRunHidesUnreadPost | agents/reply_radar.py:2148-2154 | A dry run with a limit of no drafts hides a post that the next run would have read. |
| RadarRuns.SpentClaimBlocks | agents/reply_radar.py:670-759 | A claim spent in a completed run, dry or not, blocks every draft with it for 48 hours, through all runs in between that do not tear the state file. |
| RadarRuns.PassedDraftIsSpent | agents/reply_radar.py:2262-2272 | Every draft that passed the gate in a completed run, sent or not, spends its claims. |
| CommentGate.RunAllowance | agents/comment_gate.py:665-687 | The room never exceeds two nor what the day's cap leaves, and is zero exactly when blocked, unreadable or at the cap. |
| CommentGate.NoteAttemptCounts | agents/comment_gate.py:959-968 | Counting a refusal raises only that comment's counter, never gives it up, and gives up exactly the oldest when 200 are full. |
| CommentGate.ClearAttemptCounts | agents/comment_gate.py:975-977 | Clearing forgets one counter and touches no other. |
| CommentGate.AttemptsStayInBounds | agents/comment_gate.py:951-977 | Counters stay one per comment, at most 200, each 1 or 2, through refusals and clearings. |
| CommentGate.Gate.Note | agents/comment_gate.py:959-968 | The returned total is one more than before, and its counter is still there to be read. |
| Ambassador.Agent.ReadComments | agents/ambassador.py:1479-1798 | The comment loop with its stop when the room is spent. |
| Ambassador.Agent.CollectAsked | agents/ambassador.py:1457-1477 | What a thread asks: all comments, or in a foreign thread only what mentions us. |
| Ambassador.Agent.CmdRun | agents/ambassador.py:1340-1801 | The whole nested loop leaves the state, replies, counts and outcomes of the specification. |
| AmbassadorLaws.ConsiderEffect | agents/ambassador.py:1487-1797 | One comment: the room falls by what was posted, nothing settled is forgotten, a reply goes out only outside a dry run and to a comment not remembered, and without one the day's count and the answered authors stay. |
| AmbassadorReplies.ConsiderMeans | agents/ambassador.py:1487-1797 | Exactly when a comment is answered: not remembered, neither ours nor empty, its author not answered, no dry run, and its draft passed or went out after the third refusal. |
| AmbassadorReplies.ConsiderBooks | agents/ambassador.py:1487-1797 | Exactly when a comment is remembered, and which of the four counts of skips rises. |
| AmbassadorReplies.RepliesAreJustified | agents/ambassador.py:1457-1797 | Every reply of a run answers a comment of its thread, or the post itself where it mentions us, that is neither ours nor empty, and in a thread found by a mention alone one that mentions us; its own fate let it out. |
| AmbassadorReplies.OwnCommentsAreRemembered | agents/ambassador.py:1493-1501 | A run with room to the end remembers every own or empty comment of the threads it reads. |
| AmbassadorReplies.OwnCommentsChangeNothing | agents/ambassador.py:1493-1501 | A run that meets only such comments replies to nobody and counts nothing. |
| AmbassadorReplies.OutcomeMeans | agents/ambassador.py:1309-1318 | A thread's outcome is the best that happened in it, or the first reason why nothing did. |
| AmbassadorLaws.OneThreadKeeps | agents/ambassador.py:1309-1318 | A thread gets exactly one outcome; it is "replied" if and only if a reply went out in it, and "unconsidered" leaves every counter untouched. |
| AmbassadorLaws.RunKeepsItsAllowance | agents/ambassador.py:1405-1485 | Replies plus remaining room equal the allowance, no author is answered twice, every thread found is settled, a dry run writes nothing. |
| AmbassadorLaws.SummaryAddsUp | agents/ambassador.py:1321-1337 | The counts of the summary line add up to the number of outcomes. |
| AmbassadorRuns.AnsweredAtMostOnce | agents/ambassador.py:1443-1489 | The replies of completed runs since the state file was last torn, whatever died in between, answer no comment of a thread twice, and every answered one is remembered. |
| AmbassadorRuns.RepliesAreCounted | agents/ambassador.py:402-412 | Over any runs, however they end, the replies to a comment are exactly those of runs whose state did not reach the file, plus one for each torn file that remembered it, plus one if an answer is remembered at the end. |
| AmbassadorRuns.SecondReply | agents/ambassador.py:2037-2051 | A run that dies after its reply lets the next run answer the same comment again. |
| AmbassadorRuns.TornFileAnswersAgain | agents/ambassador.py:402-412 | So does a state file torn between two completed runs, without any reply by an unsaved one. |
| AmbassadorRefusals.RefusalsInARow | agents/ambassador.py:1689-1733 | Over any runs the counters stay in bounds, and what completed runs recorded since the file was last torn never shows more than three refusals of a comment in a row. |
| AmbassadorRefusals.StreakInAnyRun | agents/ambassador.py:1689-1733 | At no point of any run, however it ends, does a comment stand at more than three in a row, counted from what is on record when it starts. |
| AmbassadorDays.DailyCapHolds | agents/comment_gate.py:665-694 | Over any runs in time order, also across midnight, no UTC day gets more than six comments plus those of runs that wrote no state and those counted in a torn file. |
| AmbassadorDays.DeadRunBreaksCap | agents/ambassador.py:2037-2051 | A run that dies after one or two replies and three full runs make seven or eight comments on one day. |
| AmbassadorDays.TornFileBreaksCap | agents/ambassador.py:402-412 | Three full runs before and three after a torn file make twelve on one day. |
| AmbassadorDays.RunPostsTwoAtMost | agents/comment_gate.py:665-694 | A run posts at most two, also if it dies. |
| Invitations.ReadPage | agents/ambassador.py:733-752 | A page is read to its last row, also past the first row outside the window. |
| Invitations.InvitedThreads | agents/ambassador.py:725-762 | At most ten pages; a list exactly when some page within them ends the window or the listing and every page before leads on. |
| Invitations.AddAllLists | agents/ambassador.py:735-752 | The result lists exactly the foreign threads that invite, each once, as mention if and only if one names us, with distinct targets. |
| Invitations.InvitesMeans | agents/ambassador.py:739-752 | What invites: a mention or a comment reply from the window into a thread that is not ours; a mention asks about its comment, or the post. |
| Invitations.CompleteForWindow | agents/ambassador.py:753-754 | Over a newest-first listing of any length the pages read say all there is about the window. |
| Invitations.OutOfOrderMisses | agents/ambassador.py:739-741 | Without that order a completed read can miss an invitation inside the window. |
| Repetition.FullContainment | agents/comment_gate.py:488-492 | Containment is between 0 and 1, and is 1 if and only if one text's sequences are all in the other. |
| Repetition.ContainmentIsShare | agents/comment_gate.py:488-492 | Containment is the number of shared sequences over that of the text with fewer. |
| Repetition.ContainmentIsSymmetric | agents/comment_gate.py:488-492 | Which text is the draft makes no difference. |
| Repetition.ShortTextsNeverMatch | agents/comment_gate.py:475-477 | A text below five words has no sequences and never matches this way. |
| Repetition.EmbeddingIsContained | agents/comment_gate.py:475-492 | A comment of five words or more inside a draft has containment 1 whatever surrounds it. |
| Repetition.RepeatsRecent | agents/comment_gate.py:495-521 | The running maximum reports the worst repetition, the earliest of equals, and nothing if and only if each of the last thirty comments with text stays below 0.90 for its opening and 0.45 for its sequences. |
| Repetition.EmbeddingIsRefused | agents/comment_gate.py:1044-1046 | So a draft that embeds one of them is refused with a score of at least 1. |
| Moltguard.SpikeInSquares | agents/moltguard.py:402-413 | The z-score test restated without the root. |
| Moltguard.SpikeBound | agents/moltguard.py:399-419 | If k of n volumes spike under the sample deviation then 9kn < (n - 1)(n - k). |
| Moltguard.SpikeBoundIsExact | agents/moltguard.py:399-419 | For every n and k within the bound some volumes make exactly k spike. |
| Moltguard.TenNeverSpike | agents/moltguard.py:401-413 | With the minimum sample of ten no market spikes. |
| Moltguard.SpikeFlags | agents/moltguard.py:406-419 | As many anomalies carry a volume spike as volumes pass the test. |
| Moltguard.FlagsMean | agents/moltguard.py:406-446 | Which flags a market gets: more than three deviations above the mean, a price that moved over 15 percent, a thin market that traded over half its volume in a day. |
| Moltguard.AnomaliesMean | agents/moltguard.py:402-451 | Reported are exactly the markets with a flag, with all their flags. |
| Moltguard.AnalyzeMarkets | agents/moltguard.py:359-458 | Below ten volumes nothing is flagged; otherwise the spikes among the anomalies obey the bound. |
| DigestWrap.Pack | agents/digest_card.py:70-82 | The lines are consecutive words, each fits or is one word, no line has room for the next word, and a cut happens only at the line limit. |
| DigestWrap.Wrap | agents/digest_card.py:69-90 | The shrink loop ends and the limit of lines holds from one line up; with a limit of none, which no caller sends, it fails if and only if the first word does not fit or all words fit on one line, and otherwise exceeds it. |
| DigestWrap.GreedyStaysAhead | agents/digest_card.py:71-80 | Line for line the greedy layout has placed at least as many words as any fitting one. |
| DigestWrap.GreedyIsOptimal | agents/digest_card.py:71-82 | No other split of the words into fitting lines uses fewer lines. |
| DigestWrap.ShortenMeans | agents/digest_card.py:84-86 | A marked line is cut back by as few steps as leave room for the mark. |
| DigestWrap.CutBackMeans | agents/digest_card.py:86 | One step drops the last word with its space, or the last character of a single word. |
| DigestWrap.MarkMeaning | agents/digest_card.py:83-89 | On a full card the mark appears if and only if words were cut or the text is longer than its words joined by single spaces. |
| DigestWrap.TrailingSpaceIsMarked | agents/digest_card.py:87-89 | A trailing space alone marks a text of which nothing is missing. |
| NumberWords.CombineTensUnits | agents/auditor.py:637-648 | The index loop computes the combiner. |
| NumberWords.CombineKeepsSum | agents/auditor.py:637-648 | Combining keeps the sum. |
| NumberWords.CombineReadsSpelled | agents/auditor.py:637-648 | On the words of numbers below one hundred the combiner returns them with bare tens and units that meet fused. |
| NumberWords.RoundTrip | agents/auditor.py:637-648 | It returns the numbers themselves if and only if no bare ten from 20 up is followed by 1 to 9. |
| NumberWords.TakeWord | agents/auditor.py:680-690 | Every match of a word is taken, or a word at least as long lies across it, or its places were gone. |
| NumberWords.Tokenize | agents/auditor.py:676-690 | Longest first: taken spans are apart, each spells its word, and every match of every entry is settled. |
| NumberWords.ReadStream | agents/auditor.py:675-690 | Number and operator spans are pairwise disjoint and each spells its word; every match of a number or operator word is taken or lost to a stated span, and an operator word gives its first free match only. |
| Retention.Tables.Retention | agents/retention_cleanup.py:49-90 | No ledger entry changes, every external caller in the log is in the ledger afterwards, and a row goes only after a rollup that worked and past the limit, its caller standing in the ledger no later. |
| Retention.PrunedWereFrozen | agents/retention_cleanup.py:53-88 | No row of an external caller is pruned before the caller stands in the ledger with a time not later than the row. |
| Retention.OwnNetsAreNotExternal | agents/retention_cleanup.py:56-61 | No address of this machine, a private network or our own hosts is external. |
| Retention.OnlyOwnNetsAreNotExternal | agents/retention_cleanup.py:56-61 | And every other one is. |
| Retention.FirstSeenIsForever | agents/retention_cleanup.py:49-90 | Over any interleaving of requests, jobs and monitor runs a caller keeps the time of its first request, in the ledger and in the monitor's eyes. |
| Retention.LateRowIsForgotten | agents/retention_cleanup.py:53-88 | A row already past the limit when it arrives between freeze and prune is forgotten. |
| StableSort.FilterSort | agents/syndicate.py:895-898 | The sort behind `sorted` is stable: every selection keeps the order that sorting it alone gives. |
| StableSort.SortOrdered | agents/syndicate.py:895-898 | And its result is ordered. |

## Left out

- MarketplaceConsumer.ScheduleIsSafe: one consumer process; the statements of one message are one atomic step, as the transaction makes them.
- Marketplace.BlanksAreIgnored: only blanks are trimmed, other white space is not; the names are free of hyphens.
- Marketplace.RowEndsAtGreatest: JSON fields that are not text read as absent, and the wildcard characters of SQL LIKE inside an ARN are plain characters.
- EvergreenWait.BoundedWait: claims nothing for deferred posts, when drafting itself keeps failing, or when the register is not read or written, which the code does not give.
- EvergreenThreads.EvergreenThreadsAreCounted: which of a run's several writes failed is not told apart beyond whether the posting time got there; a feed that lists a link twice gives both places one fate.
- Evergreen.EvergreenQueue.Run: the mode with an explicit address and the dry run, which take one post and no queue.
- Syndication.AtMostOnce: a state file that cannot be written, or a process that dies between thread and write, is outside the runs; the dry run touches no state.
- PostingCaps.ThreadsPerDay: reading, raising and writing the counter is one step, so lost updates between two processes are not modelled.
- Decisions.DraftsAreConserved: a log line is written whole or not at all; half a line would be skipped by the reader.
- Decisions.DecisionRegistry.Summary: the order in which reasons are listed.
- Radar.ReplyRadar.Run: the button consumer that may save the same file meanwhile, and the reading-list run of the retired drafter.
- Radar.Saved: of the two last writes only the first matters here; if the second alone is refused the prompt's row is missing, which is not modelled.
- RadarCaps.DraftsStayUnderCaps: counts the drafts of the runs at hand; earlier ones enter only through the counters they left.
- RadarClaims.OnlyRecentUsesClash: how claims are found in a text; a draft comes with its list of claims.
- Ambassador.Agent.CmdRun: replies inside replies are taken in the order they are collected, and the surface of threads is an input.
- AmbassadorRuns.RepliesAreCounted: a run that dies has posted some first part of its replies and changed counters; the comment that killed it is not named, and a write breaks off in a way that leaves no readable file.
- Repetition.RepeatsRecent: the ratio of two opening sentences is an input, and so is the split of a text into words.
- Moltguard.AnalyzeMarkets: exact reals instead of floating point; the deviation is passed in, since a real root is not computable here.
- DigestWrap.GreedyIsOptimal: needs that a part of a fitting run of words fits.
- NumberWords.ReadStream: sorting the found tokens, the arithmetic on the first two numbers and the fallback to digits.
- Retention.FirstSeenIsForever: a monitor run reads and writes the ledger in one step.
- Retention.PrunedWereFrozen: nothing is claimed about the contents of the rollup, only whether it failed.
- Replaying stored marketplace events at sign-up (app/aws_marketplace.py:422-486) and the sign-up itself.
- All drafting prompts, vocabularies, the voice gate, network drivers, messages to people, heartbeats and rendering: their results are inputs.
- The buttons that send a reply by hand: the code keeps no guard there, so no property is claimed.
