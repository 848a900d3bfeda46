/** `UserController`: the profile endpoints. Each handler makes one service
    call and turns its outcome into one reply; the account views it sends are
    record projections without the password hash (own profile) or without the
    hash and the email (another account). */
module UserController {
  import opened Outcomes
  import opened Crypto
  import opened UserModel
  import opened AuthService
  import opened UserService
  import opened AuthMiddleware
  import opened Replies

  const DeletedMessage: string := "User account deleted successfully"

  /** Another account as shown to a caller: `{ passwordHash, email, ...publicUser }` destructured away. */
  datatype ForeignUser = ForeignUser(
    id: string, username: string,
    profile: Profile, preferences: Preferences, streamingSubscriptions: seq<StreamingSubscription>,
    createdAt: Time, updatedAt: Time)

  function ForeignView(u: User): ForeignUser {
    ForeignUser(u.id, u.username, u.profile, u.preferences, u.streamingSubscriptions, u.createdAt, u.updatedAt)
  }

  /** `getProfile`: the caller's own record without its hash; 404 when there is
      none, 500 with the message when the read fails. */
  function GetProfile(store: Store, caller: AuthenticatedUser, fault: Option<Error>): HttpReply<PublicUser> {
    match LookupUser(store, caller.id, fault)
    case Err(e) => HttpReply(500, Failure(e.message))
    case Ok(None) => HttpReply(404, Failure(NotFoundMessage))
    case Ok(Some(user)) => HttpReply(200, Data(ToPublicJson(user)))
  }

  /** `updateProfile`: 200 with the updated public record, 400 with the message of any error. */
  function UpdateProfile(store: Store, caller: AuthenticatedUser, update: UpdateUserRequest, fault: Option<Error>,
                         now: Time, echo: bool): (HttpReply<PublicUser>, Store)
  {
    var (updated, after) := UpdateOutcome(store, caller.id, update, fault, now, echo);
    (Answer(updated, 200, 400), after)
  }

  /** `deleteProfile`: 200 with the confirmation, 400 with the message of any error. */
  function DeleteProfile(store: Store, caller: AuthenticatedUser, fault: Option<Error>): (HttpReply<()>, Store) {
    var (deleted, after) := DeleteOutcome(store, caller.id, fault);
    match deleted
    case Ok(_) => (HttpReply(200, Message(DeletedMessage)), after)
    case Err(e) => (HttpReply(400, Failure(e.message)), after)
  }

  /** `getUserById`: another account by the id in the path, without hash and email. */
  function GetUserById(store: Store, userId: string, fault: Option<Error>): HttpReply<ForeignUser> {
    match LookupUser(store, userId, fault)
    case Err(e) => HttpReply(500, Failure(e.message))
    case Ok(None) => HttpReply(404, Failure(NotFoundMessage))
    case Ok(Some(user)) => HttpReply(200, Data(ForeignView(user)))
  }

  // ---------------------------------------------------------------------------
  // Properties

  /** The view of another account hides the hash and the email and nothing
      else: two records look alike exactly when they differ at most there. */
  lemma ForeignViewForgetsHashAndEmail(u: User, v: User)
    ensures ForeignView(u) == ForeignView(v) <==> u.(passwordHash := v.passwordHash, email := v.email) == v
  {
    if ForeignView(u) == ForeignView(v) {
      assert u.id == v.id && u.username == v.username && u.profile == v.profile;
    }
  }

  /** The two profile reads answer alike: same status, same error, and the view
      of another account is the own view less its email. */
  lemma ProfileReadsAgree(store: Store, caller: AuthenticatedUser, fault: Option<Error>)
    ensures var own := GetProfile(store, caller, fault);
      var other := GetUserById(store, caller.id, fault);
      && own.status == other.status
      && (own.status == 200 <==> fault.None? && caller.id in store)
      && (own.status == 404 <==> (fault.None? && caller.id !in store) || (fault.Some? && fault.value.code == Some(404)))
      && (own.status == 500 <==> fault.Some? && fault.value.code != Some(404))
      && (own.body.Failure? ==> other.body == Failure(own.body.error))
      && (own.body.Data? ==>
            own.body.data == ToPublicJson(store[caller.id]) && other.body.data == ForeignView(store[caller.id]))
  {
  }

  /** Right after registration the caller's profile is the very user the
      registration answered with. */
  lemma ProfileAfterRegister(store: Store, req: CreateUserRequest, newId: string, salt: Salt, now: Time, cfg: JwtConfig)
    requires !EmailTaken(store, req.email) && !UsernameTaken(store, req.username) && newId !in store
    ensures var (r, after) := CreateOutcome(store, req, newId, salt, now, cfg, true);
      r.Ok? && GetProfile(after, Identity(after[newId]), None) == HttpReply(200, Data(r.value.user))
  {
    CreateReplyBoundToRecord(store, req, newId, salt, now, cfg, now);
  }

  /** An update for an account that is gone is answered 400 (not 404) "User not found". */
  lemma UpdateMissingIs400(store: Store, caller: AuthenticatedUser, update: UpdateUserRequest, now: Time, echo: bool)
    requires caller.id !in store
    ensures UpdateProfile(store, caller, update, None, now, echo) == (HttpReply(400, Failure(NotFoundMessage)), store)
  {
    UpdateMissing(store, caller.id, update, now, echo);
  }

  /** A successful update answers 200 with the rewritten record's public view. */
  lemma UpdateProfileAnswersNewRecord(store: Store, caller: AuthenticatedUser, update: UpdateUserRequest, now: Time)
    requires caller.id in store
    ensures var (reply, after) := UpdateProfile(store, caller, update, None, now, true);
      reply == HttpReply(200, Data(ToPublicJson(after[caller.id])))
  {
    UpdateRewritesOneRecord(store, caller.id, update, now, true);
  }

  /** Deleting one's account answers 200 and removes exactly it; afterwards the
      profile read answers 404. A missing account gets 400 "User not found". */
  lemma DeleteProfileCases(store: Store, caller: AuthenticatedUser)
    ensures var (reply, after) := DeleteProfile(store, caller, None);
      && (caller.id in store ==> reply == HttpReply(200, Message(DeletedMessage)) && after == store - {caller.id})
      && (caller.id !in store ==> reply == HttpReply(400, Failure(NotFoundMessage)) && after == store)
      && GetProfile(after, caller, None) == HttpReply(404, Failure(NotFoundMessage))
  {
    DeleteRemovesOneKey(store, caller.id);
  }
}
