/**
 * The user-battle handlers of backend/server.py over an in-memory store: battle rows,
 * submissions keyed by (battle, user), vote rows and the notifications written. Each
 * handler is one atomic step; `now` is the clock reading the handler takes.
 */
module BattleStore {
  import opened Common
  import opened Validators
  import opened Battles
  import opened Tally

  const BATTLE_NOT_FOUND := HttpError(404, "Battle not found")
  const WINDOW_EXPIRED := HttpError(400, "Acceptance window expired")
  const NOT_INVITED := HttpError(403, "Not invited")
  const NOT_ALLOWED_TO_UPLOAD := HttpError(403, "Not allowed to upload")
  const MEDIA_URL_REQUIRED := HttpError(400, "media_url required")
  const ALREADY_VOTED := HttpError(400, "User has already voted on this battle")
  const VOTE_FAILED := HttpError(500, "Failed to vote on battle")

  /** The notices "list(accepted) + [creator]" receives: one per acceptor, one for the creator. */
  function ParticipantNotices(accepted: set<UserId>, creator: UserId, ntype: NoticeType, id: BattleId): (r: multiset<Notice>)
    ensures forall n :: n in r ==> (n.user in accepted || n.user == creator) && n.ntype == ntype && n.reference == id
    ensures forall u :: r[Notice(u, ntype, id)] == (if u in accepted then 1 else 0) + (if u == creator then 1 else 0)
  {
    NoticesTo(accepted, ntype, id) + multiset{Notice(creator, ntype, id)}
  }

  /** What accept_battle sends for a new acceptance of `b` by `uid`, whose accepted set is now `accepted`. */
  function AcceptanceNotices(b: Battle, uid: UserId, accepted: set<UserId>, id: BattleId): (r: multiset<Notice>)
    ensures forall n :: n in r ==> n.reference == id && (n.ntype == ChallengeAccepted || n.ntype == BattleStarted)
    ensures forall u :: r[Notice(u, ChallengeAccepted, id)] == (if u == b.creator then 1 else 0) + (if u in accepted && u != b.creator && u != uid then 1 else 0)
  {
    multiset{Notice(b.creator, ChallengeAccepted, id)}
    + NoticesTo(accepted - {b.creator, uid}, ChallengeAccepted, id)
    + (if ThresholdMet(b.mode, |accepted|) then ParticipantNotices(accepted, b.creator, BattleStarted, id) else multiset{})
  }

  /** How many "ready to upload" notices `u` should get when `b`'s accepted set grows to `accepted`. */
  function ReadyShare(b: Battle, accepted: set<UserId>, u: UserId): nat
  {
    if ThresholdMet(b.mode, |accepted|) then (if u in accepted then 1 else 0) + (if u == b.creator then 1 else 0) else 0
  }

  /**
   * Of the notices a new acceptance sends, "ready to upload" goes once to each acceptor and once to
   * the creator when the threshold is met, and to nobody otherwise.
   */
  lemma ReadyNoticeCount(b: Battle, uid: UserId, accepted: set<UserId>, id: BattleId, u: UserId)
    ensures AcceptanceNotices(b, uid, accepted, id)[Notice(u, BattleStarted, id)] == ReadyShare(b, accepted, u)
  {
    var n := Notice(u, BattleStarted, id);
    var joined := NoticesTo(accepted - {b.creator, uid}, ChallengeAccepted, id);
    assert n !in joined;
    if ThresholdMet(b.mode, |accepted|) {
      var ready := NoticesTo(accepted, BattleStarted, id);
      assert u !in accepted ==> n !in ready;
    }
  }

  /** The battle accept_battle writes back for a new acceptance: the larger set, then the threshold's status. */
  function AfterAcceptance(b: Battle, accepted: set<UserId>): (r: Battle)
    ensures r.acceptedUserIds == accepted
    ensures r.status == UPLOADING <==> ThresholdMet(b.mode, |accepted|)
    ensures r.status != UPLOADING ==> r.status == INVITED
    ensures r.creator == b.creator && r.mode == b.mode && r.title == b.title && r.description == b.description
    ensures r.acceptDeadline == b.acceptDeadline && r.invitedUserIds == b.invitedUserIds && r.participantIds == b.participantIds
    ensures r.startTime == b.startTime && r.endTime == b.endTime && r.voteCounts == b.voteCounts
  {
    b.(acceptedUserIds := accepted, status := if ThresholdMet(b.mode, |accepted|) then UPLOADING else INVITED)
  }

  /**
   * What every handler keeps: acceptors are invitees, only the creator or an acceptor of an
   * existing battle holds a submission, one vote per (battle, user), and each battle's
   * vote_counts agree with its vote rows.
   */
  ghost predicate Consistent(battles: map<BattleId, Battle>, submissions: map<(BattleId, UserId), Submission>, votes: seq<VoteRow>)
  {
    && (forall id :: id in battles ==> battles[id].acceptedUserIds <= Invites(battles[id]))
    && (forall k :: k in submissions ==> k.0 in battles && (k.1 == battles[k.0].creator || k.1 in battles[k.0].acceptedUserIds))
    && OneVotePerUser(votes)
    && (forall id, c :: id in battles ==> VoteCount(battles[id].voteCounts, c) == CountChoice(votes, id, c))
  }

  /** Inserting a battle nobody has accepted, uploaded to or voted on keeps the store consistent. */
  lemma CreateKeepsConsistent(battles: map<BattleId, Battle>, submissions: map<(BattleId, UserId), Submission>,
                              votes: seq<VoteRow>, id: BattleId, b: Battle)
    requires Consistent(battles, submissions, votes) && id !in battles
    requires forall v :: v in votes ==> v.battle != id
    requires b.acceptedUserIds == {} && b.voteCounts == map[]
    ensures Consistent(battles[id := b], submissions, votes)
  {
    forall c {
      NoRowsNoCounts(votes, id, c);
    }
  }

  /** Rewriting a battle row keeps the store consistent when acceptors only grow within the invitees. */
  lemma RewriteKeepsConsistent(battles: map<BattleId, Battle>, submissions: map<(BattleId, UserId), Submission>,
                               votes: seq<VoteRow>, id: BattleId, b: Battle)
    requires Consistent(battles, submissions, votes) && id in battles
    requires b.creator == battles[id].creator && b.voteCounts == battles[id].voteCounts
    requires battles[id].acceptedUserIds <= b.acceptedUserIds <= Invites(b)
    ensures Consistent(battles[id := b], submissions, votes)
  {
  }

  /** An upsert by the creator or an acceptor keeps the store consistent. */
  lemma UpsertKeepsConsistent(battles: map<BattleId, Battle>, submissions: map<(BattleId, UserId), Submission>,
                              votes: seq<VoteRow>, id: BattleId, uid: UserId, s: Submission)
    requires Consistent(battles, submissions, votes) && id in battles
    requires uid == battles[id].creator || uid in battles[id].acceptedUserIds
    ensures Consistent(battles, submissions[(id, uid) := s], votes)
  {
  }

  /**
   * Appending a new voter's row, and raising its battle's counter for the row's choice when the
   * battle exists, keeps the store consistent.
   */
  lemma VoteKeepsConsistent(battles: map<BattleId, Battle>, submissions: map<(BattleId, UserId), Submission>,
                            votes: seq<VoteRow>, row: VoteRow)
    requires Consistent(battles, submissions, votes) && !HasVoted(votes, row.battle, row.user)
    ensures var counted := if row.battle in battles
              then battles[row.battle := battles[row.battle].(voteCounts := Increment(battles[row.battle].voteCounts, row.choice))]
              else battles;
            Consistent(counted, submissions, votes + [row])
  {
    var after := votes + [row];
    assert after[|votes|] == row;
    forall id, c | id in battles
      ensures CountChoice(after, id, c) == CountChoice(votes, id, c) + (if row.battle == id && row.choice == c then 1 else 0)
    {
      CountsAppend(votes, row, id, c);
    }
  }

  /** The results endpoint reads from the vote rows the same A and B counts vote_battle keeps in vote_counts. */
  lemma ResultsMatchCounters(battles: map<BattleId, Battle>, submissions: map<(BattleId, UserId), Submission>,
                             votes: seq<VoteRow>, id: BattleId)
    requires Consistent(battles, submissions, votes) && id in battles
    ensures Results(votes, id).optionAVotes == VoteCount(battles[id].voteCounts, "A")
    ensures Results(votes, id).optionBVotes == VoteCount(battles[id].voteCounts, "B")
  {
  }

  class Store {
    var battles: map<BattleId, Battle>
    var submissions: map<(BattleId, UserId), Submission>
    var votes: seq<VoteRow>
    var outbox: multiset<Notice>

    ghost predicate Valid()
      reads this
    {
      Consistent(battles, submissions, votes)
    }

    constructor ()
      ensures Valid()
      ensures battles == map[] && submissions == map[] && votes == [] && outbox == multiset{}
    {
      battles, submissions, votes, outbox := map[], map[], [], multiset{};
    }

    /**
     * create_user_battle: a fresh id (a new UUID) gets an INVITED battle whose acceptance window
     * closes two hours from now, with nobody accepted yet; every invitee is notified.
     */
    method CreateUserBattle(id: BattleId, creator: UserId, payload: UserBattleCreate, now: int) returns (outcome: Outcome)
      requires Valid()
      requires id !in battles && forall v :: v in votes ==> v.battle != id
      modifies this
      ensures Valid()
      ensures submissions == old(submissions) && votes == old(votes)
      ensures ValidateUserBattleCreate(payload).Err? ==>
        outcome == Fail(HttpError(422, ValidateUserBattleCreate(payload).message)) && battles == old(battles) && outbox == old(outbox)
      ensures ValidateUserBattleCreate(payload).Ok? ==>
        && outcome == Pass
        && battles.Keys == old(battles).Keys + {id}
        && (forall other :: other in old(battles) ==> battles[other] == old(battles)[other])
        && battles[id].status == INVITED && battles[id].acceptDeadline == Some(now + ACCEPT_WINDOW)
        && battles[id].acceptedUserIds == {} && battles[id].invitedUserIds == payload.invitedUserIds
        && battles[id].creator == creator && battles[id].participantIds == [creator]
        && battles[id].startTime == None && battles[id].endTime == None && battles[id].voteCounts == map[]
        && battles[id].mode == payload.mode && battles[id].title == payload.title
        && battles[id].description == payload.description
        && outbox == old(outbox) + NoticesToEach(payload.invitedUserIds, ChallengeSent, id)
    {
      var checked := ValidateUserBattleCreate(payload);
      if checked.Err? {
        return Fail(HttpError(422, checked.message));
      }
      var record := Battle(
        creator, payload.title, payload.description, payload.mode, INVITED, Some(now + ACCEPT_WINDOW),
        [creator], payload.invitedUserIds, {}, None, None, map[]);
      CreateKeepsConsistent(battles, submissions, votes, id, record);
      battles := battles[id := record];
      outbox := outbox + NoticesToEach(payload.invitedUserIds, ChallengeSent, id);
      return Pass;
    }

    /**
     * accept_battle. In this order: a closed window cancels the battle whoever calls and whatever
     * its status; a non-invitee is refused; a repeat acceptance changes nothing; otherwise the
     * caller joins the accepted set and the status is rewritten to INVITED or, when the
     * threshold is met, UPLOADING — the current status is never consulted.
     */
    method Accept(id: BattleId, uid: UserId, now: int) returns (outcome: Outcome)
      requires Valid()
      modifies this
      ensures Valid()
      ensures submissions == old(submissions) && votes == old(votes)
      ensures id !in old(battles) ==> outcome == Fail(BATTLE_NOT_FOUND) && unchanged(this)
      ensures id in old(battles) && Expired(old(battles)[id], now) ==>
        && outcome == Fail(WINDOW_EXPIRED)
        && battles == old(battles)[id := old(battles)[id].(status := CANCELLED)]
        && outbox == old(outbox) + multiset{Notice(old(battles)[id].creator, BattleResult, id)}
      ensures id in old(battles) && !Expired(old(battles)[id], now) && uid !in Invites(old(battles)[id]) ==>
        outcome == Fail(NOT_INVITED) && unchanged(this)
      ensures id in old(battles) && !Expired(old(battles)[id], now) && uid in old(battles)[id].acceptedUserIds ==>
        outcome == Pass && unchanged(this)
      ensures id in old(battles) && !Expired(old(battles)[id], now)
              && uid in Invites(old(battles)[id]) && uid !in old(battles)[id].acceptedUserIds ==>
        var b := old(battles)[id];
        var accepted := b.acceptedUserIds + {uid};
        && outcome == Pass
        && battles == old(battles)[id := AfterAcceptance(b, accepted)]
        && outbox == old(outbox) + AcceptanceNotices(b, uid, accepted, id)
    {
      if id !in battles {
        return Fail(BATTLE_NOT_FOUND);
      }
      var data := battles[id];
      if data.acceptDeadline.Some? && now > data.acceptDeadline.value {
        RewriteKeepsConsistent(battles, submissions, votes, id, data.(status := CANCELLED));
        battles := battles[id := data.(status := CANCELLED)];
        outbox := outbox + multiset{Notice(data.creator, BattleResult, id)};
        return Fail(WINDOW_EXPIRED);
      }
      var invited := Invites(data);
      var accepted := data.acceptedUserIds;
      if uid !in invited {
        return Fail(NOT_INVITED);
      }
      if uid in accepted {
        return Pass;
      }
      accepted := accepted + {uid};
      var written := data.(acceptedUserIds := accepted, status := INVITED);
      var notices := multiset{Notice(data.creator, ChallengeAccepted, id)}
                     + NoticesTo(accepted - {data.creator, uid}, ChallengeAccepted, id);
      if ThresholdMet(data.mode, |accepted|) {
        written := written.(status := UPLOADING);
        notices := notices + ParticipantNotices(accepted, data.creator, BattleStarted, id);
      }
      assert written == AfterAcceptance(data, accepted);
      assert notices == AcceptanceNotices(data, uid, accepted, id);
      RewriteKeepsConsistent(battles, submissions, votes, id, written);
      battles := battles[id := written];
      outbox := outbox + notices;
      return Pass;
    }

    /** decline_battle: only checks that the caller was invited; nothing is recorded. */
    method Decline(id: BattleId, uid: UserId) returns (outcome: Outcome)
      ensures id !in battles ==> outcome == Fail(BATTLE_NOT_FOUND)
      ensures id in battles ==> (outcome == Pass <==> uid in battles[id].invitedUserIds)
      ensures id in battles && uid !in battles[id].invitedUserIds ==> outcome == Fail(NOT_INVITED)
    {
      if id !in battles {
        return Fail(BATTLE_NOT_FOUND);
      }
      var invited := Invites(battles[id]);
      if uid !in invited {
        return Fail(NOT_INVITED);
      }
      return Pass;
    }

    /**
     * upload_battle_submission: the creator or an acceptor upserts their one submission; once the
     * distinct uploaders number |accepted| + 1 the battle goes LIVE for 24 hours from now. The
     * status is never consulted, so a further upload to a LIVE battle restarts its clock.
     */
    method Upload(id: BattleId, uid: UserId, mediaUrl: Option<string>, now: int) returns (outcome: Outcome)
      requires Valid()
      modifies this
      ensures Valid()
      ensures votes == old(votes)
      ensures id !in old(battles) ==> outcome == Fail(BATTLE_NOT_FOUND) && unchanged(this)
      ensures id in old(battles) && uid != old(battles)[id].creator && uid !in old(battles)[id].acceptedUserIds ==>
        outcome == Fail(NOT_ALLOWED_TO_UPLOAD) && unchanged(this)
      ensures id in old(battles) && (uid == old(battles)[id].creator || uid in old(battles)[id].acceptedUserIds)
              && OrEmpty(mediaUrl) == "" ==>
        outcome == Fail(MEDIA_URL_REQUIRED) && unchanged(this)
      ensures id in old(battles) && (uid == old(battles)[id].creator || uid in old(battles)[id].acceptedUserIds)
              && OrEmpty(mediaUrl) != "" ==>
        var b := old(battles)[id];
        var live := AllUploaded(b, UploadersOf(submissions, id));
        && outcome == Pass
        && submissions == old(submissions)[(id, uid) := Submission(mediaUrl.value, now)]
        && UploadersOf(submissions, id) == UploadersOf(old(submissions), id) + {uid}
        && battles == old(battles)[id := if live then GoLive(b, now) else b]
        && outbox == old(outbox) + (if live then ParticipantNotices(b.acceptedUserIds, b.creator, BattleStarted, id) else multiset{})
    {
      if id !in battles {
        return Fail(BATTLE_NOT_FOUND);
      }
      var data := battles[id];
      var accepted := data.acceptedUserIds;
      if uid != data.creator && uid !in accepted {
        return Fail(NOT_ALLOWED_TO_UPLOAD);
      }
      if mediaUrl.None? || mediaUrl.value == "" {
        return Fail(MEDIA_URL_REQUIRED);
      }
      Submit(id, uid, Submission(mediaUrl.value, now), now);
      return Pass;
    }

    /** The write half of upload_battle_submission, once the caller and the media URL are checked. */
    method Submit(id: BattleId, uid: UserId, submission: Submission, now: int)
      requires Valid() && id in battles
      requires uid == battles[id].creator || uid in battles[id].acceptedUserIds
      modifies this
      ensures Valid()
      ensures votes == old(votes)
      ensures var b := old(battles)[id];
              var live := AllUploaded(b, UploadersOf(submissions, id));
              && submissions == old(submissions)[(id, uid) := submission]
              && UploadersOf(submissions, id) == UploadersOf(old(submissions), id) + {uid}
              && battles == old(battles)[id := if live then GoLive(b, now) else b]
              && outbox == old(outbox) + (if live then ParticipantNotices(b.acceptedUserIds, b.creator, BattleStarted, id) else multiset{})
    {
      var data := battles[id];
      UploadersAfterUpsert(submissions, id, uid, submission);
      UpsertKeepsConsistent(battles, submissions, votes, id, uid, submission);
      submissions := submissions[(id, uid) := submission];
      var required := |data.acceptedUserIds| + 1;
      var uniqueUploaders := |UploadersOf(submissions, id)|;
      if uniqueUploaders >= required {
        var started := GoLive(data, now);
        RewriteKeepsConsistent(battles, submissions, votes, id, started);
        battles := battles[id := started];
        outbox := outbox + ParticipantNotices(data.acceptedUserIds, data.creator, BattleStarted, id);
      }
    }

    /**
     * vote_battle: a second vote by the same user on the same battle is refused. Otherwise the
     * row is inserted first; if the battle is missing the handler then fails with the row kept.
     * For an existing battle vote_counts[choice] goes up by one and the creator, unless voting
     * on their own battle, is notified.
     */
    method Vote(id: BattleId, uid: UserId, choice: string, now: int) returns (outcome: Outcome)
      requires Valid()
      modifies this
      ensures Valid()
      ensures submissions == old(submissions)
      ensures HasVoted(votes, id, uid)
      ensures HasVoted(old(votes), id, uid) ==> outcome == Fail(ALREADY_VOTED) && unchanged(this)
      ensures !HasVoted(old(votes), id, uid) ==> votes == old(votes) + [VoteRow(id, uid, choice, now)]
      ensures !HasVoted(old(votes), id, uid) && id !in old(battles) ==>
        outcome == Fail(VOTE_FAILED) && battles == old(battles) && outbox == old(outbox)
      ensures !HasVoted(old(votes), id, uid) && id in old(battles) ==>
        var b := old(battles)[id];
        && outcome == Pass
        && battles == old(battles)[id := b.(voteCounts := Increment(b.voteCounts, choice))]
        && outbox == old(outbox) + (if b.creator != "" && b.creator != uid then multiset{Notice(b.creator, VoteReceived, id)} else multiset{})
    {
      if HasVoted(votes, id, uid) {
        return Fail(ALREADY_VOTED);
      }
      var row := VoteRow(id, uid, choice, now);
      VoteKeepsConsistent(battles, submissions, votes, row);
      votes := votes + [row];
      assert votes[|votes| - 1] == row;
      if id !in battles {
        return Fail(VOTE_FAILED);
      }
      var data := battles[id];
      battles := battles[id := data.(voteCounts := Increment(data.voteCounts, choice))];
      if data.creator != "" && data.creator != uid {
        outbox := outbox + multiset{Notice(data.creator, VoteReceived, id)};
      }
      return Pass;
    }
  }
}
