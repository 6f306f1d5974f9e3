# A verified model of the Raft server and its client

The repository runs a replicated log over MPI: processes with ranks 1..n are Raft servers, the
ranks above them are clients. This project models the server's state machine
(`src/raft/server.cc`), the client that drives it (`src/client/client.cc`) and the entry equality
on which de-duplication rests (`src/rpc/log-entry.cc`), as the code is written, and proves what
that code keeps in every run.

## How it is modelled

- `RaftServer` and `RaftClient` give every handler, rule and role conversion as a function from
  the state of one process to its next state and the mail it sends. `ServerObject` and
  `ClientObject` are the two objects themselves, with their fields, in-place updates and loops;
  every method is proved against the corresponding function, and the sequence `outbox` records
  what was handed to `MPI_Send`, in order.
- `Cluster` is the whole system: servers, clients and one message queue per ordered pair of
  processes. A step is one message taken by a server, one timer, rule or REPL action of a server,
  one iteration of a client's loop, or a loss or duplication by the network. A run is any sequence
  of steps from the initial state, for any number of servers and clients and any command files.
- All sends use one tag and `MPI_Listen` receives from the source it probed, so each queue is first
  in, first out (section 3.5 of the MPI-3.1 standard, the non-overtaking rule). `Fifo` states this
  for a run; results for an "arbitrary network" do without it and also allow loss, duplication and
  reordering.
- A crash keeps the server's memory. A crashed server takes its mail and drops it.
- Timers, latency and random numbers become choices: a timeout, a heartbeat or a resend may happen
  at any step, and the rank drawn for a resend is any server's.
- `History` records what the theorems speak about and the code does not keep: the leaderships with
  the votes they counted (`wins`), granted votes, what became of each server's vote (`marks`), the
  log of each term's leader (`reign`), the requests delivered to it (`stream`), and the entries
  applied and the success replies sent by leaders.
- `get_prev_log_term` reads past the log when `next_index` lies beyond it. The value read is then
  arbitrary (`junk`); it only ever reaches heartbeats. In single-leadership runs it cannot happen
  (`SingleLeader.MatchIndexNeverOverclaims`).

The hypotheses on runs: `Fifo` (order, no repetition; loss allowed), `SingleCopy` (no repetition),
`Lossless` (no loss, no crash), `Timely` (no vote response reaches a candidate of a later term),
`SingleLeadership` (`convert_to_leader` happens at most once), `OneLeaderPerTerm`. They are
hypotheses because the code does not guarantee more. Each is shown to be needed by concrete runs of
three servers, followed step by step with `Scenes`:

- `StaleVotes` and `LostHeartbeat`: two leaders of one term, where all that is missing is timeliness,
  order, the delivery of one heartbeat, or a server that does not crash while it arrives;
- `Overclaim`: a leader commits and answers an entry that no other server holds, where all that is
  missing is single leadership;
- `FirstEntry.MatchIndexFalls`, `FallingCommit`: under one leader, a slot of `match_index` and a
  commit index fall, where all that is missing is order;
- `FirstEntry.CommandIsAnswered` meets all hypotheses at once: one server elected by another's vote
  replicates, commits, applies and answers a client's command.

Results by hypothesis, weakest first: `AnyNetwork`, `Voting`, `Redirection`, `OwnSlot` (any run), `Elections`
(no repetition, timely votes), `LogMatching` (no two leaders in a term, any network),
`ElectionSafety`, `SafeRuns` (ordered, lossless, timely), `SingleLeader`, `Acknowledgements`,
`ExactlyOnce`, `CommandOrder` (ordered, lossy, one leadership). `Reactions` says outright what each
input does to a server; `CatchUp`, `CommitRule`, `Progress` and `Deviations` are about compositions
of handlers.

## Where code and comments disagree

The model follows the code.

- "Votes for one candidate per term" is not kept: a candidate that wins, or is demoted by an
  AppendEntries of its term, forgets its vote and may grant another in the same term
  (`LostHeartbeat.LeaderVotesAgain` is a run; `Redirection.SecondVoteIff` gives the exact condition,
  and `Voting.VoteDiscipline` says that nothing worse happens).
- The commit rule's comment asks for an entry of the current term; the code does not look
  (`OldTermCommit.CommitsOldTerm` is a run; `OwnSlot.LeaderFollowsCommentIff` gives the exact
  condition for every leader of every run).
- "Delete the existing entry and all that follow if it conflicts" is also done when the entries of
  the message merely ran out (`Deviations.TruncatesAsCommentedIff` gives the exact condition), so a
  commit index may end past the log and then fall (`Deviations.CommitFallsIff`;
  `FallingCommit.CommitIndexFalls` is a run with both).
- The reply to a heartbeat reports the follower's last index, not the last index known to agree
  (`Deviations.HeartbeatClaimIsSoundIff`; `Overclaim` has two runs).
- A vote response is counted whatever term it answers, as long as it is not newer
  (`Progress.VotesDecide`; `StaleVotes` is a run).
- "Send back the leader rank": the redirection sends `voted_for`, the candidate of the server's last
  vote in its term unless that vote was cleared, and else 0, a rank that is neither server nor client
  (`Redirection.RedirectNamesLastVote`, with runs for 0 and for a server that never led).
- "`match_index` increases monotonically": it does in single-leadership runs over ordered channels
  (`Acknowledgements.MatchIndexNeverFalls`), and otherwise follows whatever a follower reports
  (`Acknowledgements.MatchFallsIff`; `FirstEntry.MatchIndexFalls` is a run). It starts at -1, not 0.

## Model

| member | source | states |
|---|---|---|
| ExactlyOnce.AnsweredCommandsExecutedOnce | src/client/client.cc:34-68 | Exactly once, end to end: in every single-leadership run over ordered, lossy channels, a client with `next_response` = n has each of its commands 1..n in the leader's log at one position only, applied there and held by a majority, whatever was retransmitted, redirected or lost |
| ExactlyOnce.RepliesNotMultiplied | src/client/client.cc:185-197 | The answers a client has counted plus the successes still on any one channel to it never exceed the success replies sent to it |
| ExactlyOnce.AllAnswered | src/client/client.cc:145-162 | A client that got n + 1 success replies while it may only have asked for commands 1..n + 1 has had each of those commands answered: the replies, which carry no identity, are matched by counting |
| ExactlyOnce.DoneOnce | src/raft/server.cc:318-339 | From the invariant: an answered command stands at one index of the leader's log, applied there, on a majority |
| CommandOrder.AnsweredCommandsInOrder | src/client/client.cc:145-162 | In such runs an answered client's commands were executed in the order of its file: of two of them, the earlier stands at the lower position of the leader's log, applied and on a majority like the later |
| CommandOrder.SerialsRise | src/client/client.cc:127-131 | In a log where every command but a client's first has the client's previous one further down, serial numbers of one client rise with the position |
| ElectionSafety.AtMostOneLeader | src/raft/server.cc:217-260 | Election safety: in every run over ordered lossless channels without crashes and with timely votes, no term ever has two leaderships, and no two servers lead one term at once, although a leader may vote again in its own term |
| ElectionSafety.ShieldKept | src/raft/server.cc:522-545 | The ordering behind it: a vote that a leader grants in its own term always travels behind an AppendEntries of that term on the same channel, unless its candidate is already past the term |
| ElectionSafety.OfficeMail | src/raft/server.cc:491-545 | Taking office puts an AppendEntries of the new term in the mail of every other server |
| ElectionSafety.NoRivals | src/raft/server.cc:465-468 | Two wins of one term, each counted from voters that do not hold the office themselves, are the same server's, because their majorities share a voter |
| StaleVotes.TwoLeadersOfOneTerm | src/raft/server.cc:249-260 | Timeliness is needed: a concrete run of three servers, in order, lossless and without crashes, where a vote granted in term 1 is counted in term 2 and two servers lead term 2 at once |
| LostHeartbeat.TwoLeadersByLoss | src/raft/server.cc:522-545 | Delivery is needed: a concrete run of three servers, in order, timely and without crashes, where the network loses one heartbeat of a new leader, and the vote the leader then grants in its own term makes a second leader of that term |
| LostHeartbeat.TwoLeadersByOvertaking | src/raft/server.cc:217-247 | Order is needed: a concrete run that loses and repeats nothing, timely and without crashes, where that vote overtakes the heartbeat, with the same end |
| LostHeartbeat.TwoLeadersByCrash | src/raft/server.cc:105-108 | The absence of crashes is needed: a concrete run over ordered channels that lose nothing, where the candidate crashes, drops the heartbeat, recovers and counts the vote, with the same end |
| LostHeartbeat.LeaderVotesAgain | src/raft/server.cc:522-525 | A concrete ordered lossless run with timely votes in which a leader, elected with its own vote, has granted another vote in the same term |
| Overclaim.CommittedByOneServer | src/raft/server.cc:181-209 | Single leadership is needed for durability: a concrete run of three servers over ordered lossless channels, with timely votes and one leader per term, whose second leader believes a heartbeat reply, commits and applies an entry it alone holds, and reports success to the client |
| Overclaim.NextIndexPassesLog | src/raft/server.cc:181-209 | A concrete ordered lossless run with timely votes in which the reply to a heartbeat leaves a leader with an empty log, `match_index` 0 and `next_index` 1 for that follower |
| OldTermCommit.CommitsOldTerm | src/raft/server.cc:409-431 | A concrete run of three servers, ordered, lossless and with timely votes, in which a leader of term 2 commits an entry of term 1 by counting replicas, against the comment's rule |
| FallingCommit.CommitIndexFalls | src/raft/server.cc:155-186 | Order is needed for logs and commit indices: a concrete run with one leadership that loses and repeats nothing, in which a follower first holds two entries with commit index 1, then only the first of them, so that the commit index points past its log, and then has commit index 0, while the leader's log still has all entries |
| SingleLeader.CommittedPrefixesAgree | src/raft/server.cc:181-186 | State machine safety in single-leadership runs: the committed prefixes of any two servers are comparable, and `last_applied <= commit_index < log size` |
| SingleLeader.CommittedIsDurable | src/raft/server.cc:409-431 | What the leader commits is, then and in every later state, at its index in the leader's log and on a majority |
| SingleLeader.NothingIsUndone | src/raft/server.cc:155-186 | In single-leadership runs no log is ever shortened and no commit index ever falls, between any two states of the run |
| SingleLeader.MatchIndexNeverOverclaims | src/raft/server.cc:195-215 | In single-leadership runs every log is a prefix of the leader's, `match_index[f]` is at most f's last index, and `next_index[f]` is within 0..size of the leader's log, so its reads are in range |
| SingleLeader.RepliesMatchApplied | src/raft/server.cc:318-339 | Replies are sound and conserved: the success replies correspond one to one, in order, with the entries the leader applied while leader, at strictly increasing indices, each addressed to the entry's client and each entry held by a majority |
| SingleLeader.AcceptGrows | src/raft/server.cc:155-179 | A follower with a prefix of the leader's log that accepts a snapshot not ending before it holds exactly that snapshot's prefix afterwards |
| SingleLeader.LeaderQueue | src/raft/server.cc:367-388 | Snapshots under way to a follower stay in order of their ends, and none ends before the follower's log |
| Acknowledgements.MatchIndexNeverFalls | src/raft/server.cc:534-537 | In every single-leadership run over ordered, lossy channels, each slot of the leader's `match_index` only grows, between any two states after it took office |
| Acknowledgements.FollowerReports | src/raft/server.cc:188-191 | The success replies under way from a follower report ever higher last indices, none below the slot |
| Acknowledgements.MatchFallsIff | src/raft/server.cc:195-215 | Whatever a server is given, a slot of `match_index` falls exactly when it takes office with the slot above -1, or a live server takes a success reply of that follower with a smaller last index |
| FirstEntry.MatchIndexFalls | src/raft/server.cc:206-209 | Order is needed: a concrete run with one leadership, lossless and without repetition, in which the leader's `match_index` for a follower is 0 in one state and -1 in a later one, because it took the follower's replies out of order |
| FirstEntry.CommandIsAnswered | src/client/client.cc:34-50 | The hypotheses are met together by a run of three servers: one is elected by another's vote, and a client's command is logged, replicated to that server, committed, applied and answered |
| LogMatching.LogsMatch | src/raft/server.cc:142-179 | Log matching: in every run without two leaders in a term, over an arbitrary network, two logs with the same term at an index are identical through that index |
| LogMatching.LeaderAppendOnly | src/raft/server.cc:262-285 | In such runs the log of a server that leads a term in two states, however far apart, has only grown from the first to the second |
| LogMatching.ReignsRun | src/raft/server.cc:522-545 | The record of each term's leader log, to which authorship refers, only grows over the run, past the end of the leadership too |
| LogMatching.Authorship | src/raft/server.cc:378-386 | In such runs every entry of term t, in a log or in an AppendEntries under way, stands at the same index in the log of a server that led t |
| LogMatching.SortedLogs | src/raft/server.cc:278-282 | In such runs the terms in every log are non-decreasing and bounded by the server's current term |
| LogMatching.RetransmissionsAbsorbed | src/raft/server.cc:276-282 | The log of a leader is its log on taking office followed by the requests delivered to it, filtered to the first occurrence of each key not already there, in order, for any stream of requests |
| LogMatching.HeldKeys | src/rpc/log-entry.cc:68-72 | A leader's log holds a (client, serial) key exactly when its log on taking office did or a request with it was delivered |
| LogMatching.AbsorbRequest | src/raft/server.cc:276-282 | Searching the whole log for one more request is the same as filtering the longer stream |
| LogMatching.AcceptStretch | src/raft/server.cc:155-179 | Splicing a stretch of a leader's log into a log whose entries all stand where past and present leaders had them yields exactly that leader's log up to the end of the stretch |
| SafeRuns.LogsMatchOutright | src/raft/server.cc:142-179 | Log matching without a hypothesis on leaders, for ordered lossless runs with timely votes |
| Elections.ElectionRestriction | src/raft/server.cc:433-478 | In every timely run over a network that repeats nothing, each leadership counted a majority of distinct servers that voted for it in that term, and its log on taking office was at least as up to date (last term, then length) as each voter's log when it voted |
| Elections.ReactVote | src/raft/server.cc:433-455 | A candidate's log and term are frozen while it campaigns, each counted vote adds one, and it takes office only with a majority |
| Elections.ReactSendsOnce | src/raft/server.cc:353-388 | One reaction sends at most one message to each process |
| Voting.VoteDiscipline | src/raft/server.cc:217-247 | Over an arbitrary network: if a server votes for two candidates in a term, the first is itself, and it won the term or was demoted in it by an AppendEntries before the second vote |
| Voting.TwoCandidatesAtMost | src/raft/server.cc:513-525 | Hence no server votes for three candidates in a term |
| Voting.VoteRecordStep | src/raft/server.cc:105-126 | Every reaction keeps the relation between `voted_for`, the role and the votes cast so far |
| Redirection.RedirectNamesLastVote | src/raft/server.cc:262-272 | Over an arbitrary network, a live server that does not lead answers a request by naming the candidate of its last vote in its present term, itself while it campaigns, and 0 exactly if every vote it cast in the term has been released by a win or a demotion since |
| Redirection.RemembersStep | src/raft/server.cc:217-247 | Every reaction keeps `voted_for` equal to what the history of the server's votes, wins and demotions says |
| Redirection.SecondVoteIff | src/raft/server.cc:217-247 | Over an arbitrary network, a live server whose last vote in its term went to another candidate grants a request of that term exactly when it is no candidate, the log of the one who asks is at least as up to date, and a win or a demotion has released every vote it cast in the term |
| Redirection.RedirectsToNobody | src/raft/server.cc:269-272 | A concrete run in which a client is sent to rank 0 |
| Redirection.RedirectsToNoLeader | src/raft/server.cc:269-272 | A concrete run in which a client is sent to a candidate although no server has ever led |
| AnyNetwork.NoDuplicateCommand | src/raft/server.cc:168-179 | In every state of every run, with any number of leaders, no log holds two entries with one (client, serial) key |
| AnyNetwork.TermsNeverDecrease | src/raft/server.cc:401-407 | No server's term is smaller in a later state |
| AnyNetwork.LeadersHaveWon | src/raft/server.cc:522-545 | In every run a server that leads a term has a recorded leadership of that term |
| AnyNetwork.ReplicationMail | src/raft/server.cc:367-388 | A replication round mails each other server exactly one message if `next_index` is within the log, with the true term before it and exactly the rest of the log, and nothing otherwise |
| AnyNetwork.EveryEntryMessage | src/raft/server.cc:353-388 | Conversely, any AppendEntries with entries that any reaction sends comes from a leader's replication round and is well formed |
| AnyNetwork.MailIsUnderstood | src/utils/openmpi/mpi-wrapper.cc:28-47 | In every run, what is under way to a server or client is a message it handles, names its sender truly and carries no term beyond its sender's |
| AnyNetwork.NoStepExcluded | src/raft/server.cc:36-73 | In every reachable state, every queued message can be taken by its server without an out-of-range vector access, a leader always has its vectors, and an unfinished client can iterate |
| AnyNetwork.ReactSends | src/raft/server.cc:104-339 | For every kind of mail: which input, role and state a server must have had to send it, and what it then says |
| AnyNetwork.ReactKeeps | src/raft/server.cc:105-179 | Whatever a server is given, its term does not fall, its vectors keep their size and its log keeps distinct keys |
| AnyNetwork.ReactEntries | src/raft/server.cc:155-179 | A log gains only entries of the message or of the request just handled |
| CatchUp.HandlerInstallsLog | src/raft/server.cc:142-192 | The handler refines the splice: for a leader log with distinct keys and a follower log that matches it, what the leader's rules send is accepted exactly if the logs agree below `next_index`; with entries it then leaves exactly the leader's log, and the reply reports the last index held; a rejection changes neither log nor commit index |
| CatchUp.AcceptedIffAgreed | src/raft/server.cc:142-153 | The check on the previous entry's term decides whether `next_index` is within the longest common prefix |
| CatchUp.ExchangeStep | src/raft/server.cc:195-215 | One exchange of message and reply, entries or heartbeat, either succeeds and leaves both indices at the end of what the follower then holds, or moves `next_index` back by one |
| CatchUp.CatchUpIsExact | src/raft/server.cc:195-215 | From any `next_index` up to the end of the log, where every leader starts, it takes exactly max(0, `next_index` - longest common prefix) rejections, of heartbeats or of entries, to reach a success; the follower then has the leader's whole log, and nothing else unless a heartbeat was accepted at once, and both indices are at the end of what it has |
| CommitRule.CommitIsMaximal | src/raft/server.cc:409-431 | For vectors with the leader's own slot at -1, which `OwnSlot.OwnSlotStaysUnset` proves of every leader of every run: the loop ends at the larger of the old commit index and the greatest index of the log that a quorum holds |
| CommitRule.CountIsMaximal | src/raft/server.cc:409-431 | For any vectors: the loop ends at the larger of the old commit index and the greatest index of the log whose count is more than half of the servers |
| OwnSlot.OwnSlotStaysUnset | src/raft/server.cc:195-215 | In every run, over an arbitrary network, no server's own slot of `match_index` is ever set |
| OwnSlot.CommitIsGreatestHeld | src/raft/server.cc:409-431 | In every run, with any number of leaderships, the commit rule of a live leader ends at the larger of its commit index and the greatest index of its log that a majority of distinct servers, itself among them, is recorded to hold |
| OwnSlot.LeaderFollowsCommentIff | src/raft/server.cc:390-431 | In every run the rule of a live leader follows its comment exactly when the greatest index beyond its commit index that a quorum holds, if any, carries an entry of its own term |
| CommitRule.QuorumIsCounted | src/raft/server.cc:415-424 | The counter of the inner loop equals the number of distinct holders, the leader among them, and one more where the leader's own slot reaches the index, which `OwnSlot.OwnSlotStaysUnset` excludes |
| CommitRule.QuorumAntitone | src/raft/server.cc:415-424 | A quorum for an index is one for every smaller index |
| Deviations.HeartbeatClaimIsSoundIff | src/raft/server.cc:181-189 | After an accepted heartbeat, `match_index` is true of the follower exactly when its log is a prefix of the leader's |
| Deviations.TruncatesIffShorter | src/raft/server.cc:161-169 | An accepted stretch of a matching leader log shortens the follower's log exactly when it ends before that log does, conflict or not |
| Deviations.TruncatesAsCommentedIff | src/raft/server.cc:155-179 | For an accepted stretch of a matching leader log: the code leaves the log that steps 3 and 4 of the comments ask for exactly when some entry of the message meets one of another term, or the message does not end before the log does |
| Deviations.AcknowledgedKeptIff | src/raft/server.cc:155-192 | Of two accepted stretches of one leader's log, both answered with success, the second leaves the follower with all that it acknowledged exactly when it does not end before the first, so a message that was overtaken undoes what was reported |
| Deviations.CommitFallsIff | src/raft/server.cc:181-186 | An accepted AppendEntries lowers the commit index exactly when the leader's exceeds it and the resulting log ends at or below it, and leaves it past the log exactly when the log ends there and the leader's does not exceed it |
| Deviations.CommitRuleFollowsCommentIff | src/raft/server.cc:390-431 | The step behind it, for any leader whose own slot is at -1: the code follows its comment exactly when the greatest index beyond the commit index that a quorum holds, if any, carries an entry of the leader's term |
| Deviations.VoteGrantedIff | src/raft/server.cc:217-247 | A live server grants its vote in its term exactly when it is no candidate, the candidate's log is at least as up to date, and its vote is free or the candidate's |
| Reactions.TermRule | src/raft/server.cc:105-126 | Every RPC leaves a live server in the newer of the two terms; a newer term deposes any role, with a free vote or with the vote for the candidate whose ballot brought it; otherwise a role changes only when a candidate meets an AppendEntries of its term or is elected by a vote |
| Reactions.CrashedIsSilent | src/raft/server.cc:105-108 | A crashed server answers no message of a server or a client and does not change |
| Reactions.StaleAppend | src/raft/server.cc:124-137 | An AppendEntries of an older term is refused once, with the receiver's term and last index, and changes nothing, not even a candidate's role and vote |
| Reactions.CurrentAppend | src/raft/server.cc:124-192 | Any other makes a candidate a follower with a free vote, is answered once, with success exactly if the previous entry is in the log under its term, and moves the commit index to the smaller of the leader's and the last index, and never back by itself |
| Reactions.AnswerMovesSlots | src/raft/server.cc:195-215 | The reply of a follower moves that follower's slots only: both to what it reports, or `next_index` alone to the larger of 0 and its value less one, wherever it stood; nothing is sent and nothing else changes except by a newer term |
| Reactions.BallotAnswered | src/raft/server.cc:217-247 | Every ballot gets one reply, in the receiver's new term; it is granted exactly if it is not older, the log is up to date, and the term is newer or the receiver is no candidate and has its vote free or given to the same candidate; a refusal without a newer term changes nothing |
| Reactions.VoteHandled | src/raft/server.cc:249-260 | A vote moves the count of a candidate by one if granted, puts it in office with all slots at their start exactly at a majority, and is otherwise ignored, except that a newer term deposes |
| Reactions.RequestHandled | src/raft/server.cc:262-285 | A live leader never answers a request at once, and appends it exactly if no entry has its client and serial number; any other live server answers it with its vote; a crashed one does nothing |
| Reactions.TimeoutCampaigns | src/raft/server.cc:433-455 | An election timeout of one of several servers starts the next term with its own vote, and sends every other server one ballot with its last index and term |
| Reactions.TimeoutOfOne | src/raft/server.cc:451-454 | A single server takes office at once and writes to nobody |
| Reactions.HeartbeatMail | src/raft/server.cc:353-364 | A due heartbeat, whatever the log holds, sends every other server exactly one empty AppendEntries with the leader's term, rank and commit index, `next_index` - 1 and, where that is within the log, the true term there; nobody else gets mail and nothing changes |
| Reactions.OfficeHeartbeat | src/raft/server.cc:522-545 | So does taking office with a vote, for the state it leads to |
| Reactions.WorkKeeps | src/raft/server.cc:366-395 | The replication rule changes nothing but the commit index |
| Reactions.CrashAndRecovery | src/raft/server.cc:287-314 | Crash and recovery change one flag and send nothing |
| Progress.VotesDecide | src/raft/server.cc:249-260 | A candidate that handles any sequence of vote responses, none newer, becomes leader exactly if its votes with the granted ones among them are a majority, in any order and however old, and then starts every follower at the end of its log |
| Progress.CrashedServerIsInert | src/raft/server.cc:287-314 | Whatever mail arrives between crash and recovery, the server recovers with exactly the state it crashed in |
| Progress.HeartbeatCommits | src/raft/server.cc:181-192 | A heartbeat brings a follower with the leader's log to the larger of the two commit indices and tells the leader that it holds the whole log |
| Progress.AppliedInOrder | src/raft/server.cc:318-339 | Rounds of `apply_rules` apply the committed entries one by one, none skipped or repeated, and a leader answers exactly their clients, in order |
| Progress.AppliedAtMostCommitted | src/raft/server.cc:323-325 | No number of rounds applies anything beyond the commit index |
| LogEntries.SpliceIsPrefixOf | src/raft/server.cc:155-179 | Skipping by term, erasing, and appending what is not found by key turns a matching log into exactly the leader's log up to the end of the message |
| LogEntries.SpliceDistinct | src/raft/server.cc:168-179 | It never creates two entries with one key, whatever the message holds |
| LogEntries.SpliceFrom | src/raft/server.cc:168-179 | It invents no entry |
| LogEntries.SpliceMeans | src/raft/server.cc:155-179 | On any log, matching or not: without entries nothing changes; with entries the log is kept through the longest stretch that agrees with them by term, and followed by those whose key is neither in what was kept nor earlier in the message, each once, in their order |
| LogEntries.AgreementMatches | src/raft/server.cc:158-166 | In matching logs, positions that agree by term, as far as the iterators walk, agree entirely |
| LogEntries.AbsorbStretch | src/raft/server.cc:171-179 | Appending by search a stretch of a log with distinct keys to a prefix of that log that reaches the stretch extends the prefix to its end |
| RaftServer.FanoutTo | src/raft/server.cc:482-509 | A round of mail carries to each other server exactly its own message, and nothing to the sender or anyone else |
| RaftServer.FanoutInOrder | src/utils/openmpi/mpi-wrapper.cc:59-70 | The mail of a round leaves in order of rank |
| RaftClient.StopAndWait | src/client/client.cc:34-68 | One iteration of a started client sends only the one unanswered command - once if new, once more on a redirection, once more on a timeout - and moves on only on success, with exactly one command outstanding |
| RaftClient.AsksWhenStarted | src/client/client.cc:23-50 | A new client sends nothing before it is started; then it asks the server it was created with for the first command of its file, under its own rank and serial number 1 |
| RaftClient.Destinations | src/client/client.cc:34-68 | Where one iteration sends it, in order: a new command to the last known leader, the repetition on a redirection to the rank named in it, the one on a timeout to the rank drawn, and the last of these is the last known leader from then on |
| RaftClient.SendsFillWindow | src/client/client.cc:145-177 | Any number of SEND commands in a row sends the next requests, each once and in order, until two are unanswered or none is left |
| RaftClient.Numbering | src/client/client.cc:120-131 | The commands of the file get the serial numbers 1, 2, ... in order, under the client's rank |
| ServerObject.ServerProcess.constructor | src/raft/server.cc:17-34 | A new server is a live follower in term 0 with an empty log and both indices at -1 |
| ServerObject.ServerProcess.BroadcastRequestVote | src/utils/openmpi/mpi-wrapper.cc:59-70 | The broadcast sends the round of ballots to all others, in order of rank |
| ServerObject.ServerProcess.LeaderHeartbeat | src/raft/server.cc:491-509 | The loop sends the round of empty AppendEntries to all others, in order of rank |
| ServerObject.ServerProcess.GetPrevLogTerm | src/raft/server.cc:559-569 | The term before `next_index`: -1 at the start, the entry's term within the log, arbitrary beyond it |
| ServerObject.ServerProcess.SetCurrentTerm | src/raft/server.cc:401-407 | Only the term changes |
| ServerObject.ServerProcess.ConvertToFollower | src/raft/server.cc:513-520 | The role changes and the vote is cleared, nothing else |
| ServerObject.ServerProcess.ConvertToLeader | src/raft/server.cc:522-545 | The role changes, the vote is cleared, both vectors are set anew and the first heartbeats go out |
| ServerObject.ServerProcess.ConvertToCandidate | src/raft/server.cc:433-455 | A new term with the server's own vote, immediate victory if that is a majority, and the broadcast after it |
| ServerObject.ServerProcess.OnRpc | src/raft/server.cc:105-117 | The object does to any RPC what the step function does whose outcome `Reactions` states for each kind, dropped mail of a crashed server included |
| ServerObject.ServerProcess.Find | src/raft/server.cc:176-177 | The search finds an entry exactly if some entry has the same client and serial number, whatever its term and command |
| ServerObject.ServerProcess.SkipAgreeing | src/raft/server.cc:158-166 | The two iterators stop at the first position where the terms differ or either sequence ends |
| ServerObject.ServerProcess.Overwrite | src/raft/server.cc:168-179 | Erasing and the loop of searches leave the kept part with every entry not found by key appended in order |
| ServerObject.ServerProcess.Reconcile | src/raft/server.cc:155-179 | The in-place steps 3 and 4 compute the splice that `LogEntries.SpliceMeans` describes and about which `LogEntries` and `CatchUp` prove the rest |
| ServerObject.ServerProcess.OnAppendEntriesRpc | src/raft/server.cc:119-192 | Log, commit index, role and the single reply in the stale, the rejected and the accepted case are the specification's, which `Reactions.StaleAppend` and `Reactions.CurrentAppend` state outright and `CatchUp.HandlerInstallsLog`, `Deviations.TruncatesIffShorter` and `Deviations.CommitFallsIff` characterise |
| ServerObject.ServerProcess.OnAppendEntriesResponse | src/raft/server.cc:195-215 | The follower's two slots after success or failure are as `Reactions.AnswerMovesSlots` says, on which `CatchUp.CatchUpIsExact`, `SingleLeader.MatchIndexNeverOverclaims` and `Acknowledgements.MatchIndexNeverFalls` build; nothing else changes |
| ServerObject.ServerProcess.CandidateLogIsUpToDate | src/raft/server.cc:470-478 | The comparison by last term and then last index; an empty log accepts any candidate with an entry |
| ServerObject.ServerProcess.OnRequestVoteRpc | src/raft/server.cc:217-247 | The object answers as the specification does that `Reactions.BallotAnswered` states outright and whose grants `Deviations.VoteGrantedIff` and `Voting.VoteDiscipline` characterise |
| ServerObject.ServerProcess.OnRequestVoteResponse | src/raft/server.cc:249-260 | The object counts as the specification does whose single step is `Reactions.VoteHandled` and whose outcome over any sequence of responses is `Progress.VotesDecide` |
| ServerObject.ServerProcess.OnClientRequest | src/raft/server.cc:262-285 | The object logs, redirects or stays silent as the specification does that `Reactions.RequestHandled` states outright and `LogMatching.RetransmissionsAbsorbed` and `Redirection.RedirectNamesLastVote` characterise, the search included |
| ServerObject.ServerProcess.OnReplCrash | src/raft/server.cc:287-291 | Only `alive` changes |
| ServerObject.ServerProcess.OnReplRecovery | src/raft/server.cc:309-314 | Only `alive` changes back: nothing was lost from memory |
| ServerObject.ServerProcess.ApplyRules | src/raft/server.cc:318-339 | One step of what `Progress.AppliedInOrder` proves over any number of rounds |
| ServerObject.ServerProcess.ApplyFollowerAndCandidateRules | src/raft/server.cc:341-351 | An elapsed timeout starts an election as `Reactions.TimeoutCampaigns` says; otherwise nothing changes |
| ServerObject.ServerProcess.SendEntries | src/raft/server.cc:367-388 | The loop sends the round of entries to the servers that lack some, in order of rank |
| ServerObject.ServerProcess.ApplyLeaderRules | src/raft/server.cc:353-395 | Either the heartbeat round alone, which `Reactions.HeartbeatMail` proves to reach every other server, or the entries of `AnyNetwork.ReplicationMail` followed by the commit rule |
| ServerObject.ServerProcess.CountAcks | src/raft/server.cc:417-422 | One more than the number of ranks whose `match_index` reaches n |
| ServerObject.ServerProcess.UpdateCommitIndex | src/raft/server.cc:409-431 | The loop terminates with the commit index unchanged or at an index of the log whose count is a majority, and no greater index of the log has one; with the own slot at -1, as in every run (`OwnSlot.OwnSlotStaysUnset`), these are exactly the indices held by a quorum |
| ClientObject.ClientProcess.constructor | src/client/client.cc:23-32 | A new client with its numbered commands and a first server to ask |
| ClientObject.ClientProcess.LoadClientsCommand | src/client/client.cc:120-122 | The loop numbers all lines of the file in order |
| ClientObject.ClientProcess.SendNextRequest | src/client/client.cc:145-156 | The next command is sent and counted as outstanding, unless the window is full |
| ClientObject.ClientProcess.Resend | src/client/client.cc:158-162 | The unanswered command goes out again to the current target; no counter moves |
| ClientObject.ClientProcess.OnReplSend | src/client/client.cc:172-177 | One SEND command, of which `RaftClient.SendsFillWindow` tells what any number does |
| ClientObject.ClientProcess.OnClientResponse | src/client/client.cc:185-197 | A success moves on; a redirection changes the target and resends to it, as `RaftClient.Destinations` proves |
| ClientObject.ClientProcess.CheckTimeSinceLastRequest | src/client/client.cc:56-68 | An elapsed timeout with a command outstanding picks a target and resends; otherwise nothing changes |
| ClientObject.ClientProcess.HearOne | src/client/client.cc:41-47 | At most one message is taken and handled |
| ClientObject.ClientProcess.RunIteration | src/client/client.cc:38-50 | One turn of the loop is one client step of the system model |
| ClientObject.ClientProcess.Run | src/client/client.cc:34-50 | The loop on any schedule of messages and timeouts is the fold of those steps, and ends when all commands are answered |

## Left out

- Leader Completeness and State Machine Safety across several leaderships (section 5.4.3 of the
  Raft paper, "In Search of an Understandable Consensus Algorithm"): the code does not provide
  them. `Overclaim` is a run in which a committed and answered entry is on one server only, and
  `Deviations` shows the commit rule, heartbeat reply and commit bound behind such runs.
- Runs with SEND commands (`on_repl_send`), whose window is proved (`RaftClient.SendsFillWindow`): a
  second request may then be outstanding while successes are counted without being identified, so
  exactly-once is only claimed for START mode.
- Liveness that rests on clocks, random timeouts or fair scheduling; `Progress` and `CatchUp` state
  what follows once the messages are handled.
- Integer widths: terms, indices and serial numbers are unbounded, where the source has `int` and
  `unsigned int`; the value -1 for "no previous entry", which the source passes through unsigned
  constructor parameters, is a plain integer.
- ServerObject.ServerProcess.ApplyRules: when the commit index points past a leader's log the
  source reads outside the vector; the model sends nothing there. Single-leadership runs never get
  there (`SingleLeader.CommittedPrefixesAgree`).
- The server's endless `run` loop: its message loop and its rules are separate steps here, so every
  grouping of them by the loop is covered, and more. A crashed server only takes mail, as in the code.
- A client's finish notification to the others after its last answer, and shutdown.
- Message encoding in JSON and dispatch on the message type.
- MPI beyond ordered channels: blocking sends, buffers that outlive `MPI_Isend`, probing.
- The REPL's input, speed settings, `save_log`, console output and benchmark timing.
