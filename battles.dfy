/**
 * The user-battle record and the pure rules of its lifecycle: acceptance threshold,
 * deadline, completeness of uploads and who may view a battle (backend/server.py).
 */
module Battles {
  import opened Common
  import opened Text
  import opened Validators

  const INVITED: string := "INVITED"
  const UPLOADING: string := "UPLOADING"
  const LIVE: string := "LIVE"
  const ENDED: string := "ENDED"
  const CANCELLED: string := "CANCELLED"

  /** How long invitees have to accept, and how long a battle stays live. */
  const ACCEPT_WINDOW: int := 2 * HOUR
  const LIVE_DURATION: int := 24 * HOUR

  /**
   * A row of the battles table as the user-battle flow reads and writes it. The status is the
   * raw stored string; acceptedUserIds is kept as the set the handlers turn the stored list into.
   */
  datatype Battle = Battle(
    creator: UserId,
    title: string,
    description: Option<string>,
    mode: string,
    status: string,
    acceptDeadline: Option<int>,
    participantIds: seq<UserId>,
    invitedUserIds: seq<UserId>,
    acceptedUserIds: set<UserId>,
    startTime: Option<int>,
    endTime: Option<int>,
    voteCounts: map<string, int>)

  /** One uploaded media item, keyed in the store by (battle, user). */
  datatype Submission = Submission(mediaUrl: string, createdAt: int)

  /** The `ntype` of a notification row; a notification goes to one user about one battle. */
  datatype NoticeType = ChallengeSent | ChallengeAccepted | BattleStarted | BattleResult | VoteReceived
  datatype Notice = Notice(user: UserId, ntype: NoticeType, reference: BattleId)

  /** The invited list as the set the handlers build from it. */
  function Invites(b: Battle): set<UserId>
  {
    set u | u in b.invitedUserIds
  }

  /** The acceptance window has closed (a battle without a deadline never expires). */
  predicate Expired(b: Battle, now: int): (r: bool)
    ensures r ==> b.acceptDeadline.Some?
    ensures b.acceptDeadline.Some? ==> (r <==> now > b.acceptDeadline.value)
  {
    b.acceptDeadline.Some? && now > b.acceptDeadline.value
  }

  /** _threshold_met: enough acceptances for the battle to move on to uploads. */
  function ThresholdMet(mode: string, acceptedCount: int): (r: bool)
    ensures r ==> acceptedCount >= 1 && mode in {ONE_V_ONE, MULTI}
    ensures mode == ONE_V_ONE ==> (r <==> acceptedCount >= 1)
    ensures mode == MULTI ==> (r <==> acceptedCount >= 2)
  {
    (mode == ONE_V_ONE && acceptedCount >= 1) || (mode == MULTI && acceptedCount >= 2)
  }

  /** Once met, the threshold stays met as acceptances grow. */
  lemma ThresholdMonotone(mode: string, m: int, n: int)
    requires m <= n && ThresholdMet(mode, m)
    ensures ThresholdMet(mode, n)
  {
  }

  lemma {:induction false} SubsetCardinality<T>(a: set<T>, b: set<T>)
    requires a <= b
    ensures |a| <= |b|
    ensures |a| == |b| ==> a == b
  {
    var extra := b - a;
    assert b == a + extra;
    assert a * extra == {};
    if |a| == |b| {
      assert |extra| == 0;
      assert extra == {};
    }
  }

  lemma {:induction false} SeqSetCardinality<T>(s: seq<T>)
    ensures |set x | x in s| <= |s|
  {
    if |s| > 0 {
      SeqSetCardinality(s[1..]);
      assert (set x | x in s) == {s[0]} + (set x | x in s[1..]);
    }
  }

  /**
   * A multi battle with fewer than two invitees (which its validator lets through) can never
   * reach its threshold, since only invitees can accept.
   */
  lemma MultiBattleWithOneInviteStaysInvited(b: Battle)
    requires b.mode == MULTI && |b.invitedUserIds| < 2
    requires b.acceptedUserIds <= Invites(b)
    ensures !ThresholdMet(b.mode, |b.acceptedUserIds|)
  {
    SeqSetCardinality(b.invitedUserIds);
    SubsetCardinality(b.acceptedUserIds, Invites(b));
  }

  /** The distinct users holding a submission for battle `id`. */
  function UploadersOf(submissions: map<(BattleId, UserId), Submission>, id: BattleId): (r: set<UserId>)
    ensures forall u :: u in r <==> (id, u) in submissions
  {
    set k | k in submissions && k.0 == id :: k.1
  }

  /** An upsert for (id, uid) adds uid to the uploaders and nothing else; a repeat adds no one. */
  lemma UploadersAfterUpsert(submissions: map<(BattleId, UserId), Submission>, id: BattleId, uid: UserId, s: Submission)
    ensures UploadersOf(submissions[(id, uid) := s], id) == UploadersOf(submissions, id) + {uid}
    ensures (id, uid) in submissions ==> UploadersOf(submissions[(id, uid) := s], id) == UploadersOf(submissions, id)
  {
    var after := submissions[(id, uid) := s];
    assert (id, uid) in after;
    forall u | u in UploadersOf(submissions, id) ensures u in UploadersOf(after, id) {
      assert (id, u) in after;
    }
  }

  /** The rule upload_battle_submission applies: distinct uploaders reach |accepted| + 1. */
  predicate AllUploaded(b: Battle, uploaders: set<UserId>): (r: bool)
    ensures b.acceptedUserIds == {} ==> (r <==> uploaders != {})
    ensures r ==> uploaders != {}
  {
    |uploaders| >= |b.acceptedUserIds| + 1
  }

  /**
   * When the creator is not among the acceptors, and only the creator and acceptors can upload,
   * the counting rule means exactly "every required participant has uploaded".
   */
  lemma AllUploadedIffEveryParticipant(b: Battle, uploaders: set<UserId>)
    requires uploaders <= b.acceptedUserIds + {b.creator}
    requires b.creator !in b.acceptedUserIds
    ensures AllUploaded(b, uploaders) <==> uploaders == b.acceptedUserIds + {b.creator}
  {
    SubsetCardinality(uploaders, b.acceptedUserIds + {b.creator});
    assert |b.acceptedUserIds + {b.creator}| == |b.acceptedUserIds| + 1;
  }

  /**
   * A creator who invited and then accepted their own battle is counted twice by the rule but can
   * upload only once: such a battle never goes live.
   */
  lemma CreatorAmongAcceptorsNeverUploaded(b: Battle, uploaders: set<UserId>)
    requires uploaders <= b.acceptedUserIds + {b.creator}
    requires b.creator in b.acceptedUserIds
    ensures !AllUploaded(b, uploaders)
  {
    assert b.acceptedUserIds + {b.creator} == b.acceptedUserIds;
    SubsetCardinality(uploaders, b.acceptedUserIds);
  }

  /** The battle after the upload that completes it: LIVE for 24 hours from now. */
  function GoLive(b: Battle, now: int): (r: Battle)
    ensures r.status == LIVE && r.endTime == Some(now + LIVE_DURATION) && r.startTime == Some(now)
    ensures r.acceptedUserIds == b.acceptedUserIds && r.voteCounts == b.voteCounts && r.creator == b.creator
    ensures r.mode == b.mode && r.title == b.title && r.description == b.description && r.acceptDeadline == b.acceptDeadline
    ensures r.invitedUserIds == b.invitedUserIds && r.participantIds == b.participantIds
  {
    b.(status := LIVE, startTime := Some(now), endTime := Some(now + LIVE_DURATION))
  }

  /** _user_can_view_battle: live and ended battles are public, the others only for those involved. */
  function UserCanViewBattle(b: Battle, uid: UserId): (r: bool)
    ensures r <==> || Upper(b.status) in {LIVE, ENDED}
                   || uid == b.creator
                   || (uid != "" && (uid in b.invitedUserIds || uid in b.participantIds || uid in b.acceptedUserIds))
  {
    var status := Upper(b.status);
    if status == LIVE || status == ENDED then true
    else
      var allowed := {b.creator}
        + (set i | i in b.participantIds && i != "")
        + (set i | i in b.invitedUserIds && i != "")
        + (set i | i in b.acceptedUserIds && i != "");
      uid in allowed
  }

  /** The status comparison ignores ASCII case: a "live" row is as public as a "LIVE" one. */
  lemma LowerCaseLiveIsPublic(b: Battle, uid: UserId)
    requires b.status == "live"
    ensures UserCanViewBattle(b, uid)
  {
    assert Upper(b.status) == LIVE;
  }

  /** One notification of the given type about `id` to each user of a set. */
  function NoticesTo(users: set<UserId>, ntype: NoticeType, id: BattleId): (r: multiset<Notice>)
    ensures forall n :: n in r ==> n.user in users && n.ntype == ntype && n.reference == id
    ensures forall u :: u in users ==> r[Notice(u, ntype, id)] == 1
  {
    multiset(set u | u in users :: Notice(u, ntype, id))
  }

  /** One notification of the given type about `id` per entry of a list, duplicates included. */
  function NoticesToEach(users: seq<UserId>, ntype: NoticeType, id: BattleId): (r: multiset<Notice>)
    ensures |r| == |users|
    ensures forall n :: n in r ==> n.user in users && n.ntype == ntype && n.reference == id
    ensures forall u :: r[Notice(u, ntype, id)] == multiset(users)[u]
    ensures forall u, t :: t != ntype ==> r[Notice(u, t, id)] == 0
  {
    if |users| == 0 then multiset{}
    else
      assert users == [users[0]] + users[1..];
      multiset{Notice(users[0], ntype, id)} + NoticesToEach(users[1..], ntype, id)
  }
}
