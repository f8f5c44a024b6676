/** Whole user-battle flows on a fresh store, each stated as the contract of a method that runs the handlers in turn. */
module Scenarios {
  import opened Common
  import opened Validators
  import opened Battles
  import opened BattleStore

  /** A 1v1 battle is created and its rival accepts: the battle is ready for uploads. */
  method OpenDuel(id: BattleId, creator: UserId, rival: UserId, now: int) returns (store: Store, ready: Battle)
    requires creator != rival
    ensures fresh(store) && store.Valid()
    ensures id in store.battles && store.battles[id] == ready
    ensures ready.status == UPLOADING && ready.creator == creator && ready.acceptedUserIds == {rival}
    ensures ready.acceptDeadline == Some(now + ACCEPT_WINDOW)
    ensures UploadersOf(store.submissions, id) == {}
  {
    store := new Store();
    var outcome := store.CreateUserBattle(id, creator, UserBattleCreate("Duel", None, ONE_V_ONE, [rival], None, None), now);
    var created := store.battles[id];
    assert rival in Invites(created) && !Expired(created, now);
    assert created.acceptedUserIds + {rival} == {rival};
    outcome := store.Accept(id, rival, now);
    ready := store.battles[id];
    assert ready == AfterAcceptance(created, created.acceptedUserIds + {rival});
  }

  /** The creator uploads twice, then the rival uploads: only the second participant's upload sets the battle LIVE. */
  method UploadBoth(store: Store, id: BattleId, ready: Battle, rival: UserId, now: int) returns (afterCreatorUploads: Battle, afterBothUpload: Battle)
    requires store.Valid() && id in store.battles && store.battles[id] == ready
    requires ready.status == UPLOADING && ready.acceptedUserIds == {rival} && ready.creator != rival
    requires UploadersOf(store.submissions, id) == {}
    modifies store
    ensures store.Valid() && id in store.battles && store.battles[id] == afterBothUpload
    ensures afterCreatorUploads.status == UPLOADING
    ensures afterBothUpload.status == LIVE && afterBothUpload.endTime == Some(now + 1 + LIVE_DURATION)
    ensures afterBothUpload.acceptDeadline == ready.acceptDeadline
  {
    CreatorUploadsTwice(store, id, ready, now);
    afterCreatorUploads := store.battles[id];
    var outcome := store.Upload(id, rival, Some("rival.jpg"), now + 1);
    assert UploadersOf(store.submissions, id) == {ready.creator, rival};
    afterBothUpload := store.battles[id];
    assert afterBothUpload == GoLive(ready, now + 1);
  }

  /** A repeated upload by the creator replaces their submission and leaves a 1v1 battle waiting for the rival. */
  method CreatorUploadsTwice(store: Store, id: BattleId, ready: Battle, now: int)
    requires store.Valid() && id in store.battles && store.battles[id] == ready
    requires |ready.acceptedUserIds| == 1 && ready.creator !in ready.acceptedUserIds
    requires UploadersOf(store.submissions, id) == {}
    modifies store
    ensures store.Valid() && id in store.battles && store.battles[id] == ready
    ensures UploadersOf(store.submissions, id) == {ready.creator}
  {
    var creator := ready.creator;
    var outcome := store.Upload(id, creator, Some("first.jpg"), now);
    assert UploadersOf(store.submissions, id) == {creator} && store.battles[id] == ready;
    outcome := store.Upload(id, creator, Some("second.jpg"), now);
  }

  /** Accept never looks at the status: an accept call after the window cancels even a LIVE battle. */
  method LateAcceptCancelsLiveBattle(id: BattleId, creator: UserId, rival: UserId, stranger: UserId, now: int)
    returns (afterCreatorUploads: Battle, afterBothUpload: Battle, afterLateAccept: Battle, lateOutcome: Outcome)
    requires creator != rival
    ensures afterCreatorUploads.status == UPLOADING
    ensures afterBothUpload.status == LIVE && afterBothUpload.endTime == Some(now + 1 + LIVE_DURATION)
    ensures afterLateAccept.status == CANCELLED && lateOutcome == Fail(WINDOW_EXPIRED)
  {
    var store, ready := OpenDuel(id, creator, rival, now);
    afterCreatorUploads, afterBothUpload := UploadBoth(store, id, ready, rival, now);
    lateOutcome := store.Accept(id, stranger, now + ACCEPT_WINDOW + 1);
    afterLateAccept := store.battles[id];
  }

  /**
   * Upload never consults the status, and with nobody accepted one uploader already meets
   * |accepted| + 1: the creator's own upload sets a just-created battle LIVE before the rival answers.
   */
  method CreatorGoesLiveAlone(id: BattleId, creator: UserId, rival: UserId, now: int) returns (created: Battle, afterUpload: Battle)
    ensures created.status == INVITED && created.acceptedUserIds == {} && created.creator == creator
    ensures afterUpload.status == LIVE && afterUpload.acceptedUserIds == {}
    ensures afterUpload.endTime == Some(now + LIVE_DURATION)
  {
    var store := new Store();
    var outcome := store.CreateUserBattle(id, creator, UserBattleCreate("Duel", None, ONE_V_ONE, [rival], None, None), now);
    created := store.battles[id];
    assert UploadersOf(store.submissions, id) == {};
    outcome := store.Upload(id, creator, Some("solo.jpg"), now);
    assert UploadersOf(store.submissions, id) == {creator};
    afterUpload := store.battles[id];
    assert afterUpload == GoLive(created, now);
  }

  /** A multi battle with three invitees is created: nobody has accepted and no "ready" notice is sent. */
  method InviteThree(id: BattleId, creator: UserId, a: UserId, b: UserId, c: UserId, now: int) returns (store: Store, created: Battle)
    requires creator != a && creator != b && creator != c && a != b && a != c && b != c
    ensures fresh(store) && store.Valid()
    ensures forall u :: store.outbox[Notice(u, BattleStarted, id)] == 0
    ensures id in store.battles && store.battles[id] == created && !Expired(created, now)
    ensures created.mode == MULTI && created.creator == creator && created.acceptedUserIds == {}
    ensures created.invitedUserIds == [a, b, c]
  {
    store := new Store();
    var outcome := store.CreateUserBattle(id, creator, UserBattleCreate("Duel", None, MULTI, [a, b, c], None, None), now);
    created := store.battles[id];
    assert store.outbox == NoticesToEach([a, b, c], ChallengeSent, id);
  }

  /** One acceptance on a battle in the store, with the "ready to upload" notices it adds. */
  method AcceptStep(store: Store, id: BattleId, before: Battle, uid: UserId, now: int) returns (after: Battle)
    requires store.Valid() && id in store.battles && store.battles[id] == before
    requires !Expired(before, now) && uid in Invites(before) && uid !in before.acceptedUserIds
    modifies store
    ensures store.Valid() && id in store.battles && store.battles[id] == after
    ensures after == AfterAcceptance(before, before.acceptedUserIds + {uid})
    ensures forall u :: store.outbox[Notice(u, BattleStarted, id)] == old(store.outbox)[Notice(u, BattleStarted, id)] + ReadyShare(before, after.acceptedUserIds, u)
  {
    var outcome := store.Accept(id, uid, now);
    after := store.battles[id];
    forall u ensures store.outbox[Notice(u, BattleStarted, id)] == old(store.outbox)[Notice(u, BattleStarted, id)] + ReadyShare(before, after.acceptedUserIds, u) {
      ReadyNoticeCount(before, uid, before.acceptedUserIds + {uid}, id, u);
    }
  }

  /** Two of three invitees accept a multi battle: "ready" goes once to the creator and each acceptor, never to the third invitee. */
  method MultiBattleReadyAfterTwoAccepts(id: BattleId, creator: UserId, a: UserId, b: UserId, c: UserId, now: int)
    returns (battle: Battle, notices: multiset<Notice>)
    requires creator != a && creator != b && creator != c && a != b && a != c && b != c
    ensures battle.status == UPLOADING && battle.acceptedUserIds == {a, b}
    ensures notices[Notice(creator, BattleStarted, id)] == 1
    ensures notices[Notice(a, BattleStarted, id)] == 1 && notices[Notice(b, BattleStarted, id)] == 1
    ensures notices[Notice(c, BattleStarted, id)] == 0
  {
    var store, created := InviteThree(id, creator, a, b, c, now);
    var first := AcceptStep(store, id, created, a, now);
    assert {} + {a} == {a} && {a} + {b} == {a, b};
    battle := AcceptStep(store, id, first, b, now);
    notices := store.outbox;
  }
}
