# Battle backend of the DaddyBaddy social app, modelled in Dafny

The model covers the photo-battle logic of the FastAPI backend (`backend/server.py`).

- **User-battle lifecycle.** A creator invites one rival (1v1) or several (multi). Invitees accept within a two-hour window. Once enough have accepted (`_threshold_met`), the battle moves to UPLOADING. When the creator and every acceptor have uploaded media, it goes LIVE for 24 hours. An accept call after the window has closed cancels the battle.
- **Votes.** `vote_battle` allows one vote per user per battle and keeps a per-choice counter on the battle row. The results endpoint turns the vote rows into totals and percentages.
- **Live connections.** `ConnectionManager` keeps the open WebSocket connections of each battle and the connection of each `"battle:user"` key. A broadcast prunes the sockets whose send failed.
- **Phone sign-up.** `send_otp`, `verify_otp` and `register_with_otp` form a one-time-password state machine: five-minute codes, three attempts, and a ten-minute window in which a verified phone may register.
- **Pure helpers.** Request validators, the battle visibility rule, and the canonical name of a direct-message room together with its parse.

Modules:

- `Common`: identifiers, `Option`, `Result`, HTTP errors and outcomes, time units.
- `Text`: Python's `str.strip`, `str.upper` (ASCII), string ordering and `str.split` on one character.
- `Validators`: the pydantic validators.
- `DirectMessages`: room names.
- `Battles`: the battle record and the pure rules of its lifecycle.
- `Tally`: vote rows, counts and results.
- `BattleStore`: a `Store` class whose fields are the battles, submissions, votes and notifications tables. Its methods are the battle handlers. Every method keeps the invariant `Consistent`:
  - acceptors are invitees;
  - only the creator or an acceptor holds a submission;
  - there is one vote row per (battle, user);
  - each battle's `vote_counts` agrees with its vote rows.
- `Connections`: `ConnectionManager` as a class, generic in the socket type.
- `Otp`: the OTP store as a class. Each handler is specified by a pure transition function on one phone's entry.
- `Scenarios`: whole flows on a fresh store, stated as method contracts.

Time is whole seconds. Each handler takes the clock reading `now` as a parameter. A notification is recorded as the triple (recipient, type, battle) in a multiset outbox, because the order in which the source walks a set is not fixed.

The model keeps the code's behaviour as written, including these consequences of it, each stated by a member below:

- `accept_battle` never looks at the status:
  - an accept call after the window cancels the battle whoever calls and whatever its status, a LIVE battle included (`Scenarios.LateAcceptCancelsLiveBattle`);
  - a new acceptance rewrites the status to INVITED or UPLOADING (`BattleStore.Store.Accept`).
- `upload_battle_submission` never looks at the status:
  - while nobody has accepted, `|accepted| + 1` is one, so the creator's own upload sets a just-created INVITED battle LIVE before any rival answers (`Scenarios.CreatorGoesLiveAlone`);
  - a further upload to a LIVE battle restarts its 24 hours (`BattleStore.Store.Upload`).
- The multi branch of the invite validator does nothing, so a multi battle may have zero or one invitee (`Validators.MultiInviteCountUnchecked`). Such a battle can never reach its threshold (`Battles.MultiBattleWithOneInviteStaysInvited`).
- A creator who invites and accepts their own battle is counted twice but uploads once, so once the creator has accepted, no upload makes the battle live (`Battles.CreatorAmongAcceptorsNeverUploaded`).
- `vote_battle` does not validate the choice, and it inserts the vote row before it reads the battle. For a missing battle the call fails with the row kept (`BattleStore.Store.Vote`).
- `disconnect` drops the user's key even when it now holds another socket (`Connections.ConnectionManager.Disconnect`).
- A room name built from an id containing `:` cannot be parsed back (`DirectMessages.ColonInIdBreaksParse`). With a colon in a battle id, two (battle, user) pairs share one connection key (`Connections.UserKeyCollides`).

## Model

| member | source | states |
|---|---|---|
| Text.TrimStart | backend/server.py:172 | the result is a suffix of the input and does not start with whitespace |
| Text.TrimEnd | backend/server.py:172 | the result is a prefix of the input and does not end with whitespace |
| Text.TrimStartDropsSpaces | backend/server.py:172 | every character dropped from the front is whitespace |
| Text.TrimEndDropsSpaces | backend/server.py:172 | every character dropped from the back is whitespace |
| Text.Strip | backend/server.py:172 | what `strip()` leaves is no longer than the input and neither starts nor ends with whitespace |
| Text.StripIdempotent | backend/server.py:248-250 | stripping a stripped string changes nothing |
| Text.StripEmptyIff | backend/server.py:174 | a string strips to empty exactly when every character is whitespace |
| Text.Upper | backend/server.py:1265 | `upper()` keeps the length, turns each lower-case ASCII letter into the matching upper-case letter, and leaves every other character as it is |
| Text.UpperIdempotent | backend/server.py:1265 | upper-casing twice is upper-casing once |
| Text.LexLeTotal | backend/server.py:88 | any two ids are ordered one way or the other, so `sorted` of two ids is defined |
| Text.LexLeAntisymmetric | backend/server.py:88 | two ids each ordered before the other are equal |
| Text.Split | backend/server.py:1715 | `split(":")` yields one more piece than there are separators, and no piece holds a separator |
| Text.SplitNoSeparator | backend/server.py:1715 | splitting a string without the separator yields the string itself |
| Text.SplitAround | backend/server.py:1715 | splitting `x:y`, with neither part holding `:`, yields exactly `[x, y]` |
| Text.OccurrencesAppend | backend/server.py:1715 | separator counts add over concatenation |
| Validators.ValidateIdentifier | backend/server.py:170-178 | login fails exactly when both stripped identifiers are empty; otherwise each field is its stripped value, a blank one becomes None, and at least one is present |
| Validators.BlankIdentifiersRejected | backend/server.py:172-175 | whitespace-only username and phone are rejected |
| Validators.ValidateTitle | backend/server.py:246-250 | a title is accepted exactly when it has at least 3 characters once stripped, and the stripped title is what is kept |
| Validators.ValidateChoice | backend/server.py:255-259 | a vote choice is accepted exactly when it is "A" or "B" |
| Validators.ValidateContent | backend/server.py:290-297 | a comment is accepted exactly when it has 1 to 280 characters once stripped; the stripped text is kept, and blank input gives the "cannot be empty" error |
| Validators.ValidateMode | backend/server.py:307-311 | the mode is accepted exactly when it is "1v1" or "multi" |
| Validators.ValidateInvites | backend/server.py:313-322 | the invite list is rejected exactly when the mode is 1v1 and the list does not have exactly one entry; an accepted list is unchanged |
| Validators.ValidateUserBattleCreate | backend/server.py:299-322 | a battle payload is accepted exactly when its mode is multi, or 1v1 with one invitee, and it is then unchanged |
| Validators.MultiInviteCountUnchecked | backend/server.py:318-321 | a multi payload passes with any number of invitees |
| DirectMessages.CanonicalDmName | backend/server.py:87-89 | a room name starts with the "dm:" prefix and has more after it |
| DirectMessages.CanonicalDmNameSymmetric | backend/server.py:87-89 | both users of a pair get the same room name |
| DirectMessages.ParseDmName | backend/server.py:1713-1717 | a parse yields two colon-free ids that rebuild the room name |
| DirectMessages.SplitTwo | backend/server.py:1715-1716 | when a split yields two pieces, they joined around the separator give back the input |
| DirectMessages.ParseCanonicalDmName | backend/server.py:1713-1717 | the name of two colon-free ids parses back to those ids in sorted order |
| DirectMessages.ColonInIdBreaksParse | backend/server.py:1713-1717 | the name built from an id holding ":" yields no participants |
| Battles.Expired | backend/server.py:1171-1172 | a battle without a deadline never expires; one with a deadline has expired exactly when the clock is past it |
| Battles.ThresholdMet | backend/server.py:1164-1165 | a 1v1 battle needs one acceptance and a multi battle two; any other mode never reaches its threshold |
| Battles.ThresholdMonotone | backend/server.py:1164-1165 | once met, the threshold stays met as acceptances grow |
| Battles.SubsetCardinality | backend/server.py:1244-1247 | a subset is no larger than its superset, and of equal size only when the two are equal |
| Battles.SeqSetCardinality | backend/server.py:1177 | the set built from a list is no larger than the list |
| Battles.MultiBattleWithOneInviteStaysInvited | backend/server.py:1195 | a multi battle with fewer than two invitees never meets its threshold |
| Battles.UploadersOf | backend/server.py:1244-1246 | a user is among the distinct uploaders of a battle exactly when a submission for (battle, user) exists |
| Battles.UploadersAfterUpsert | backend/server.py:1236-1246 | an upsert by a user adds that user to the distinct uploaders and nobody else; a repeat upload adds no one |
| Battles.AllUploaded | backend/server.py:1243-1247 | the counting rule needs at least one uploader, and with nobody accepted any single uploader meets it |
| Battles.AllUploadedIffEveryParticipant | backend/server.py:1244-1247 | when the creator is not an acceptor, the counting rule holds exactly when the creator and every acceptor have uploaded |
| Battles.CreatorAmongAcceptorsNeverUploaded | backend/server.py:1244-1247 | when the creator is also an acceptor, the counting rule never holds |
| Battles.GoLive | backend/server.py:1249-1253 | the completing upload sets LIVE, start now and end 24 hours later; creator, title, description, mode, deadline, invitees, participants, acceptors and counts stay as they were |
| Battles.UserCanViewBattle | backend/server.py:1263-1275 | a user may view a battle exactly when its status is LIVE or ENDED in any ASCII case, or the user is the creator, or the user id is non-empty and among the participants, invitees or acceptors |
| Battles.LowerCaseLiveIsPublic | backend/server.py:1265-1267 | a battle stored as "live" is public |
| Battles.NoticesTo | backend/server.py:1190-1192 | a loop over a set notifies each member exactly once, and nobody else |
| Battles.NoticesToEach | backend/server.py:1148-1149 | a loop over a list sends each user as many notices as the user has entries in the list, all of the given type, to listed users only |
| Tally.HasVoted | backend/server.py:1308-1311 | a user has a vote row for a battle exactly when the user is among its voters |
| Tally.CountVotes | backend/server.py:831 | the total is at most the number of rows; `CountsAppend` and `NoRowsNoCounts` fix its value row by row |
| Tally.CountChoice | backend/server.py:832-833 | the rows for one choice are at most the battle's total; `CountsAppend` and `NoRowsNoCounts` fix its value row by row |
| Tally.CountsAppend | backend/server.py:831-833 | appending one vote row raises the total and the per-choice count by one exactly where the row matches |
| Tally.NoRowsNoCounts | backend/server.py:831-833 | a battle without vote rows has every count at zero |
| Tally.ChoicesWithinTotal | backend/server.py:831-833 | votes for A plus votes for B never exceed the total, and equal it when every choice is A or B |
| Tally.TotalIsDistinctVoters | backend/server.py:1309-1312 | with one row per user the total number of votes is the number of distinct voters |
| Tally.VotersAppend | backend/server.py:1309-1312 | one more vote row adds its voter to the battle's voters, and only when the row is for that battle |
| Tally.Percentage | backend/server.py:835-836 | with votes, the percentage times the total is 100 times the count; without votes it is 0; a share of the total is between 0 and 100 per cent |
| Tally.SharesAdd | backend/server.py:835-836 | two shares that make up the total add to 100 per cent |
| Tally.Results | backend/server.py:825-845 | the results echo the battle id, count every row of the battle as the total and the rows choosing A and B as the option votes, and give each option's percentage of the total; A plus B never exceeds the total |
| Tally.PercentagesComplete | backend/server.py:832-836 | with at least one vote and every choice A or B, the two percentages add to 100 |
| Tally.ThreeToOne | backend/server.py:825-845 | three votes for A and one for B give 4, 3, 1, 75.0 and 25.0 |
| Tally.ThreeToOneCounts | backend/server.py:831-833 | the four rows A, A, B, A count 4 in total, 3 for A and 1 for B |
| Tally.Increment | backend/server.py:1325-1327 | the chosen counter goes up by one, every other counter is unchanged, and the choice becomes a key |
| BattleStore.ParticipantNotices | backend/server.py:1198-1200 | notifying `list(accepted) + [creator]` about the battle sends one notice to each acceptor plus one to the creator (two if the creator accepted), and nothing to anyone else |
| BattleStore.ReadyNoticeCount | backend/server.py:1195-1200 | a new acceptance sends "ready to upload" to each acceptor once and to the creator once (twice if the creator accepted) when the threshold is met, and to nobody otherwise |
| BattleStore.AcceptanceNotices | backend/server.py:1188-1200 | a new acceptance sends "accepted" once to the creator and once to each acceptor other than the creator and the caller, and only "accepted" or "ready" notices about this battle |
| BattleStore.AfterAcceptance | backend/server.py:1184-1196 | the written battle holds the grown accepted set; its status is UPLOADING exactly when the threshold is met, and INVITED otherwise; every other field stays as it was |
| BattleStore.CreateKeepsConsistent | backend/server.py:1122-1141 | inserting a battle with no acceptors and empty counts, under an id with no vote rows, keeps the store consistent |
| BattleStore.RewriteKeepsConsistent | backend/server.py:1185 | rewriting a battle row whose acceptors only grow within its invitees keeps the store consistent |
| BattleStore.UpsertKeepsConsistent | backend/server.py:1236-1241 | an upsert by the creator or an acceptor keeps the store consistent |
| BattleStore.VoteKeepsConsistent | backend/server.py:1321-1329 | appending a fresh voter's row and raising that battle's counter by one keeps the counts equal to the rows |
| BattleStore.ResultsMatchCounters | backend/server.py:825-845 | in a consistent store the results endpoint's A and B counts equal the `vote_counts` entries `vote_battle` maintains |
| BattleStore.Store.constructor | backend/server.py:1117-1155 | the empty store is consistent |
| BattleStore.Store.CreateUserBattle | backend/server.py:1117-1155 | an invalid payload gives 422 and changes nothing; otherwise a new INVITED battle with the payload's title, description, mode and invitees, a two-hour deadline, the creator as sole participant, nobody accepted, no start or end and empty counts; one challenge notice per invite entry; other battles unchanged |
| BattleStore.Store.Accept | backend/server.py:1167-1206 | missing battle gives 404. A closed window gives CANCELLED, a notice to the creator and 400, whoever calls. A non-invitee gets 403 and nothing changes. A repeat acceptance changes nothing. Otherwise the caller joins, the status follows the threshold, and the acceptance notices are sent. Consistency is kept |
| BattleStore.Store.Decline | backend/server.py:1208-1221 | missing battle gives 404; the call succeeds exactly for invitees, others get 403; nothing changes |
| BattleStore.Store.Upload | backend/server.py:1223-1261 | missing battle gives 404; users other than the creator and acceptors get 403; an empty media URL gives 400; otherwise the user's one submission is replaced, and the battle goes LIVE with the participants notified once the distinct uploaders reach `|accepted| + 1`. Consistency is kept |
| BattleStore.Store.Submit | backend/server.py:1236-1255 | the user's submission is replaced and they become an uploader; once every participant has uploaded, the battle goes LIVE with a 24-hour end and the participants are notified, otherwise nothing else changes. Consistency is kept |
| BattleStore.Store.Vote | backend/server.py:1304-1345 | a second vote gets 400 and changes nothing. Otherwise the row is appended; a missing battle then gives 500 with the row kept; an existing battle gets its choice counter raised by one and the creator, unless voting on their own battle, gets a vote notice. Counts stay equal to the rows |
| Connections.UserKey | backend/server.py:122 | the key is the battle id, ":" and the user id |
| Connections.UserKeyInjective | backend/server.py:122 | with colon-free battle ids, different (battle, user) pairs get different keys |
| Connections.UserKeyCollides | backend/server.py:122 | with a colon in a battle id, two different pairs share a key |
| Connections.Survivors | backend/server.py:139-148 | the connections kept by a broadcast are exactly those whose send succeeded |
| Connections.SendAll | backend/server.py:138-144 | the sends reach exactly the sockets whose send succeeds, and the disconnected list holds exactly the others |
| Connections.Discard | backend/server.py:146-148 | discarding the listed sockets leaves exactly the sockets not listed |
| Connections.ConnectionManager.constructor | backend/server.py:113-115 | both tables start empty |
| Connections.ConnectionManager.Connect | backend/server.py:117-123 | the socket joins its battle's set (created when absent) and becomes the user's connection |
| Connections.ConnectionManager.Disconnect | backend/server.py:125-131 | the socket leaves its battle's set, an emptied set is removed, unknown battles are untouched, and the user's key is removed |
| Connections.ConnectionManager.BroadcastToBattle | backend/server.py:133-148 | an unknown battle changes nothing; otherwise the message reaches exactly the sockets whose send succeeds, and the battle's set becomes those sockets; the user table is untouched |
| Otp.Decimal | backend/server.py:569 | `str(n)` is a non-empty string of decimal digits |
| Otp.DecimalRoundTrip | backend/server.py:569 | reading back `str(n)` gives n, so distinct codes have distinct texts |
| Otp.SixDigitCode | backend/server.py:569 | a code drawn from 100000..999999 has six digits |
| Otp.VerifyOn | backend/server.py:592-626 | verification succeeds exactly when the entry exists, is unexpired, has fewer than three failed attempts and holds the token; expired and exhausted entries are deleted; a wrong token costs one attempt; success stamps the time |
| Otp.ThreeWrongTokensLockOut | backend/server.py:607-614 | after three wrong tokens even the right code fails with "Too many attempts" and deletes the entry |
| Otp.RegisterOn | backend/server.py:628-697 | registration succeeds exactly when the entry is verified, at most ten minutes ago, the phone is unused and the profile insert succeeds; success removes the entry; a missing or never-verified entry fails with "not verified" and a never-verified entry is kept; a lapsed verification deletes the entry; an existing profile deletes it; a failed insert keeps it |
| Otp.RegistrationNeedsCorrectCode | backend/server.py:603-645 | registering requires an earlier verify call with the stored code, before the code expired, at most ten minutes before |
| Otp.OtpStorage.constructor | backend/server.py:42 | the store starts empty |
| Otp.OtpStorage.SendOtp | backend/server.py:561-590 | without SMS configured the call fails with nothing stored; otherwise the phone's entry becomes a fresh code for five minutes with no attempts; the call succeeds exactly when the SMS is sent |
| Otp.OtpStorage.VerifyOtp | backend/server.py:592-626 | the outcome and the phone's new entry are those of `VerifyOn`; other phones are untouched |
| Otp.OtpStorage.RegisterWithOtp | backend/server.py:628-697 | the outcome and the phone's new entry are those of `RegisterOn`; other phones are untouched |
| Scenarios.OpenDuel | backend/server.py:1117-1206 | a 1v1 battle whose rival accepts is UPLOADING with the rival as sole acceptor, the two-hour deadline and no uploads |
| Scenarios.UploadBoth | backend/server.py:1223-1261 | the creator uploading twice leaves the battle UPLOADING; the rival's upload then makes it LIVE for 24 hours |
| Scenarios.CreatorUploadsTwice | backend/server.py:1236-1247 | two uploads by the creator of a battle with one other acceptor leave one uploader and the battle row untouched |
| Scenarios.CreatorGoesLiveAlone | backend/server.py:1241-1253 | the creator's upload to a just-created 1v1 battle nobody has accepted sets it LIVE for 24 hours |
| Scenarios.LateAcceptCancelsLiveBattle | backend/server.py:1171-1176 | an accept call by a stranger after the window cancels a LIVE battle and fails with 400 |
| Scenarios.InviteThree | backend/server.py:1117-1155 | creating a multi battle with three invitees stores it with nobody accepted and sends no "ready" notice |
| Scenarios.AcceptStep | backend/server.py:1167-1206 | each acceptance adds one "ready" notice per acceptor and one for the creator exactly when the battle turns UPLOADING |
| Scenarios.MultiBattleReadyAfterTwoAccepts | backend/server.py:1195-1200 | in a multi battle the second of three invitees to accept makes it UPLOADING, and "ready" goes once each to the creator and both acceptors, never to the third invitee |

## Left out

- The database client is replaced by maps. Three of its behaviours are not modelled:
  - `.single()` raises when no row matches; the model takes the code's own "not found" branch instead;
  - an insert or update can fail, which would end in the handlers' generic 500 errors;
  - the upsert is modelled as keyed by (battle, user). With duplicate rows instead, the distinct-uploader count would be the same.
- Requests are modelled as if they ran one at a time, with no concurrency. Each handler is one atomic step, although the source's reads and writes are separate calls that other requests can interleave with.
- The clock is read once per handler as `now`. The source reads it separately for `start_time` and `end_time`, and the two readings differ by microseconds.
- Text of notifications, JSON encoding of broadcast messages, logging, the WebSocket endpoint and its ping loop, Twilio, password hashing, JWT and the current-user lookup are not modelled. The SMS gateway and the profile lookup and insert become boolean parameters.
- The code generator `random.randint` is not modelled; `Otp.OtpStorage.SendOtp` takes the code as a parameter in its range.
- Otp.OtpStorage.SendOtp: the error detail is "Failed to send OTP" without the exception text the source appends to it.
- Columns the user-battle flow writes as constants are not modelled: option_a, option_b, type, is_active and created_at. Visibility and tags are validated but never stored.
- Vote payloads without a `choice` key are not modelled: they fail after the row is inserted. A battle row whose `vote_counts` is null is not modelled either.
- Tally.Results: percentages are exact rationals, without the rounding to one decimal place.
- Text.Upper: upper-cases ASCII letters only, where Python's `upper()` covers all of Unicode. The status values compared against are ASCII.
- The other validators (age, matching passwords), the legacy battle endpoints, posts, follows, chat listing beyond the room-name parse, profiles and private comments are outside the modelled core.
- Connections.ConnectionManager.BroadcastToBattle: a send that fails is given by the oracle `sendOk`. The order of sends over the set and the awaiting between them are not modelled.
