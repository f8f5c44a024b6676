/** The request validators that run before a handler sees its payload (backend/server.py). */
module Validators {
  import opened Common
  import opened Text

  const ONE_V_ONE: string := "1v1"
  const MULTI: string := "multi"
  const MAX_COMMENT_LENGTH: nat := 280
  const MIN_TITLE_LENGTH: nat := 3

  /** `value or ''` for an optional string. */
  function OrEmpty(o: Option<string>): string
  {
    if o.Some? then o.value else ""
  }

  /** `value or None` for a string: the empty string becomes None. */
  function NoneIfEmpty(s: string): Option<string>
  {
    if s == "" then None else Some(s)
  }

  datatype Identifier = Identifier(username: Option<string>, phone: Option<string>)

  /** LoginRequest.validate_identifier: strip both fields, demand at least one, blank ones become None. */
  function ValidateIdentifier(username: Option<string>, phone: Option<string>): (r: Result<Identifier>)
    ensures r.Err? <==> Strip(OrEmpty(username)) == "" && Strip(OrEmpty(phone)) == ""
    ensures r.Ok? ==> r.value.username.Some? || r.value.phone.Some?
    ensures r.Ok? ==> OrEmpty(r.value.username) == Strip(OrEmpty(username))
    ensures r.Ok? ==> OrEmpty(r.value.phone) == Strip(OrEmpty(phone))
    ensures r.Ok? ==> r.value.username != Some("") && r.value.phone != Some("")
  {
    var u := Strip(OrEmpty(username));
    var p := Strip(OrEmpty(phone));
    if u == "" && p == "" then Err("username or phone is required")
    else Ok(Identifier(NoneIfEmpty(u), NoneIfEmpty(p)))
  }

  /** An identifier made only of whitespace counts as missing. */
  lemma BlankIdentifiersRejected(username: string, phone: string)
    requires forall i :: 0 <= i < |username| ==> IsSpace(username[i])
    requires forall i :: 0 <= i < |phone| ==> IsSpace(phone[i])
    ensures ValidateIdentifier(Some(username), Some(phone)).Err?
  {
    StripEmptyIff(username);
    StripEmptyIff(phone);
  }

  /** CreateBattleRequest.validate_title: at least three characters once stripped; the stripped title is kept. */
  function ValidateTitle(v: string): (r: Result<string>)
    ensures r.Ok? <==> |Strip(v)| >= MIN_TITLE_LENGTH
    ensures r.Ok? ==> r.value == Strip(v) && Strip(r.value) == r.value
  {
    StripIdempotent(v);
    var t := Strip(v);
    if |t| < MIN_TITLE_LENGTH then Err("Title must be at least 3 characters long") else Ok(t)
  }

  /** VoteRequest.validate_choice: the choice is "A" or "B". */
  function ValidateChoice(v: string): (r: Result<string>)
    ensures r.Ok? <==> v in {"A", "B"}
    ensures r.Ok? ==> r.value == v
  {
    if v == "A" || v == "B" then Ok(v) else Err("Choice must be A or B")
  }

  /** PrivateCommentCreate.validate_content: 1 to 280 characters once stripped; the stripped text is kept. */
  function ValidateContent(v: string): (r: Result<string>)
    ensures r.Ok? <==> 0 < |Strip(v)| <= MAX_COMMENT_LENGTH
    ensures r.Ok? ==> r.value == Strip(v) && Strip(r.value) == r.value
    ensures r.Err? && Strip(v) == "" ==> r.message == "Content cannot be empty"
  {
    StripIdempotent(v);
    var t := Strip(v);
    if |t| == 0 then Err("Content cannot be empty")
    else if |t| > MAX_COMMENT_LENGTH then Err("Content exceeds 280 characters")
    else Ok(t)
  }

  /** UserBattleCreate.validate_mode. */
  function ValidateMode(v: string): (r: Result<string>)
    ensures r.Ok? <==> v in {ONE_V_ONE, MULTI}
  {
    if v == ONE_V_ONE || v == MULTI then Ok(v) else Err("mode must be 1v1 or multi")
  }

  /**
   * UserBattleCreate.validate_invites. `mode` is None when the mode validator already failed.
   * Only 1v1 is checked: the multi branch of the source does nothing.
   */
  function ValidateInvites(mode: Option<string>, invites: seq<UserId>): (r: Result<seq<UserId>>)
    ensures r.Err? <==> mode == Some(ONE_V_ONE) && |invites| != 1
    ensures r.Ok? ==> r.value == invites
  {
    if mode == Some(ONE_V_ONE) && |invites| != 1 then Err("1v1 battles require exactly one invited user")
    else Ok(invites)
  }

  /** The payload of POST /battles/user. */
  datatype UserBattleCreate = UserBattleCreate(
    title: string,
    description: Option<string>,
    mode: string,
    invitedUserIds: seq<UserId>,
    visibility: Option<string>,
    tags: Option<seq<string>>)

  /** Both field validators of UserBattleCreate, in field order. */
  function ValidateUserBattleCreate(p: UserBattleCreate): (r: Result<UserBattleCreate>)
    ensures r.Ok? <==> p.mode == MULTI || (p.mode == ONE_V_ONE && |p.invitedUserIds| == 1)
    ensures r.Ok? ==> r.value == p
  {
    var mode := ValidateMode(p.mode);
    var invites := ValidateInvites(if mode.Ok? then Some(p.mode) else None, p.invitedUserIds);
    if mode.Err? then Err(mode.message)
    else if invites.Err? then Err(invites.message)
    else Ok(p)
  }

  /** A multi battle passes validation with any number of invitees, none included. */
  lemma MultiInviteCountUnchecked(p: UserBattleCreate)
    requires p.mode == MULTI
    ensures ValidateUserBattleCreate(p) == Ok(p)
  {
  }
}
