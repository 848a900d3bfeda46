/** The account record and its normalisation (`UserModel`): the constructor
    fills every missing field from a default, merging the nested profile and
    preference objects over built-in defaults; `toJSON` gives the plain record
    back and `toPublicJSON` drops the password hash. */
module UserModel {
  import opened Outcomes

  /** A JavaScript `Date`, as milliseconds since the epoch. */
  type Time = nat

  datatype StreamingSubscription = StreamingSubscription(
    serviceId: string, serviceName: string, isActive: bool, tier: Option<string>, addedAt: string)

  /** A normalised profile: the optional fields as given, the genre list always present. */
  datatype Profile = Profile(
    firstName: Option<string>, lastName: Option<string>, avatar: Option<string>,
    dateOfBirth: Option<string>, bio: Option<string>, favoriteGenres: seq<string>)

  /** A profile object as supplied by a caller: any field may be missing. */
  datatype ProfileData = ProfileData(
    firstName: Option<string>, lastName: Option<string>, avatar: Option<string>,
    dateOfBirth: Option<string>, bio: Option<string>, favoriteGenres: Option<seq<string>>)

  datatype Notifications = Notifications(
    newRecommendations: bool, groupInvites: bool, movieUpdates: bool, email: bool, push: bool)

  datatype NotificationsData = NotificationsData(
    newRecommendations: Option<bool>, groupInvites: Option<bool>, movieUpdates: Option<bool>,
    email: Option<bool>, push: Option<bool>)

  datatype Privacy = Privacy(profileVisibility: string, ratingsVisibility: string, allowGroupInvites: bool)

  datatype PrivacyData = PrivacyData(
    profileVisibility: Option<string>, ratingsVisibility: Option<string>, allowGroupInvites: Option<bool>)

  datatype Preferences = Preferences(
    language: string, region: string, adultContent: bool, notifications: Notifications, privacy: Privacy)

  datatype PreferencesData = PreferencesData(
    language: Option<string>, region: Option<string>, adultContent: Option<bool>,
    notifications: Option<NotificationsData>, privacy: Option<PrivacyData>)

  /** A normalised account record: what a `UserModel` holds and what the store keeps. */
  datatype User = User(
    id: string, email: string, username: string, passwordHash: string,
    profile: Profile, preferences: Preferences, streamingSubscriptions: seq<StreamingSubscription>,
    createdAt: Time, updatedAt: Time)

  /** The object handed to the `UserModel` constructor: any field may be missing. */
  datatype UserData = UserData(
    id: Option<string>, email: Option<string>, username: Option<string>, passwordHash: Option<string>,
    profile: Option<ProfileData>, preferences: Option<PreferencesData>,
    streamingSubscriptions: Option<seq<StreamingSubscription>>,
    createdAt: Option<Time>, updatedAt: Option<Time>)

  /** A record without its password hash (`Omit<User, 'passwordHash'>`). */
  datatype PublicUser = PublicUser(
    id: string, email: string, username: string,
    profile: Profile, preferences: Preferences, streamingSubscriptions: seq<StreamingSubscription>,
    createdAt: Time, updatedAt: Time)

  const DefaultProfile: Profile := Profile(None, None, None, None, None, [])

  const DefaultNotifications: Notifications := Notifications(
    newRecommendations := true, groupInvites := true, movieUpdates := true, email := true, push := false)

  const DefaultPrivacy: Privacy := Privacy(
    profileVisibility := "public", ratingsVisibility := "public", allowGroupInvites := true)

  const DefaultPreferences: Preferences := Preferences(
    language := "en", region := "US", adultContent := false,
    notifications := DefaultNotifications, privacy := DefaultPrivacy)

  // ---------------------------------------------------------------------------
  // The constructor

  /** `{ ...defaultProfile, ...profile }`. */
  function ProfileFrom(p: ProfileData): Profile {
    Profile(p.firstName, p.lastName, p.avatar, p.dateOfBirth, p.bio,
            p.favoriteGenres.GetOr(DefaultProfile.favoriteGenres))
  }

  /** `{ ...defaultPreferences.notifications, ...notifications }`; spreading a
      missing object adds nothing. */
  function NotificationsFrom(n: Option<NotificationsData>): Notifications {
    var d := DefaultNotifications;
    match n
    case None => d
    case Some(v) =>
      Notifications(v.newRecommendations.GetOr(d.newRecommendations), v.groupInvites.GetOr(d.groupInvites),
                    v.movieUpdates.GetOr(d.movieUpdates), v.email.GetOr(d.email), v.push.GetOr(d.push))
  }

  /** `{ ...defaultPreferences.privacy, ...privacy }`. */
  function PrivacyFrom(p: Option<PrivacyData>): Privacy {
    var d := DefaultPrivacy;
    match p
    case None => d
    case Some(v) =>
      Privacy(v.profileVisibility.GetOr(d.profileVisibility), v.ratingsVisibility.GetOr(d.ratingsVisibility),
              v.allowGroupInvites.GetOr(d.allowGroupInvites))
  }

  /** `{ ...defaultPreferences, ...preferences, notifications: …, privacy: … }`. */
  function PreferencesFrom(p: PreferencesData): Preferences {
    var d := DefaultPreferences;
    Preferences(p.language.GetOr(d.language), p.region.GetOr(d.region), p.adultContent.GetOr(d.adultContent),
                NotificationsFrom(p.notifications), PrivacyFrom(p.privacy))
  }

  /** `new UserModel(data)`; `now` is the clock reading used for a missing timestamp.
      A missing or empty string field becomes the empty string. */
  function Normalize(data: UserData, now: Time): User {
    User(
      id := data.id.GetOr(""),
      email := data.email.GetOr(""),
      username := data.username.GetOr(""),
      passwordHash := data.passwordHash.GetOr(""),
      profile := if data.profile.Some? then ProfileFrom(data.profile.value) else DefaultProfile,
      preferences := if data.preferences.Some? then PreferencesFrom(data.preferences.value) else DefaultPreferences,
      streamingSubscriptions := data.streamingSubscriptions.GetOr([]),
      createdAt := data.createdAt.GetOr(now),
      updatedAt := data.updatedAt.GetOr(now))
  }

  // ---------------------------------------------------------------------------
  // toJSON and toPublicJSON

  function ProfileToData(p: Profile): ProfileData {
    ProfileData(p.firstName, p.lastName, p.avatar, p.dateOfBirth, p.bio, Some(p.favoriteGenres))
  }

  function PreferencesToData(p: Preferences): PreferencesData {
    var n := p.notifications;
    var v := p.privacy;
    PreferencesData(
      Some(p.language), Some(p.region), Some(p.adultContent),
      Some(NotificationsData(Some(n.newRecommendations), Some(n.groupInvites), Some(n.movieUpdates),
                             Some(n.email), Some(n.push))),
      Some(PrivacyData(Some(v.profileVisibility), Some(v.ratingsVisibility), Some(v.allowGroupInvites))))
  }

  /** `toJSON()`: the plain record, every field present, as it would be handed
      to the constructor again. */
  function ToJson(u: User): UserData {
    UserData(Some(u.id), Some(u.email), Some(u.username), Some(u.passwordHash),
             Some(ProfileToData(u.profile)), Some(PreferencesToData(u.preferences)),
             Some(u.streamingSubscriptions), Some(u.createdAt), Some(u.updatedAt))
  }

  /** `toPublicJSON()`: `toJSON()` with `passwordHash` destructured away. */
  function ToPublicJson(u: User): PublicUser {
    PublicUser(u.id, u.email, u.username, u.profile, u.preferences, u.streamingSubscriptions,
               u.createdAt, u.updatedAt)
  }

  // ---------------------------------------------------------------------------
  // Properties of the constructor

  /** Scalar fields: the given value, or the empty string when absent; the
      subscription list as given (same order), or empty; timestamps as given, or the clock. */
  lemma NormalizeScalars(data: UserData, now: Time)
    ensures var u := Normalize(data, now);
      && (data.id.None? ==> u.id == "") && (data.id.Some? ==> u.id == data.id.value)
      && (data.email.None? ==> u.email == "") && (data.email.Some? ==> u.email == data.email.value)
      && (data.username.None? ==> u.username == "") && (data.username.Some? ==> u.username == data.username.value)
      && (data.passwordHash.None? ==> u.passwordHash == "")
      && (data.passwordHash.Some? ==> u.passwordHash == data.passwordHash.value)
      && (data.streamingSubscriptions.None? ==> u.streamingSubscriptions == [])
      && (data.streamingSubscriptions.Some? ==> u.streamingSubscriptions == data.streamingSubscriptions.value)
      && u.createdAt == (if data.createdAt.Some? then data.createdAt.value else now)
      && u.updatedAt == (if data.updatedAt.Some? then data.updatedAt.value else now)
  {
  }

  /** Without a profile the record gets `{ favoriteGenres: [] }`; with one, every
      supplied field wins and the genre list is empty only when it was not supplied. */
  lemma NormalizeProfile(data: UserData, now: Time)
    ensures var p := Normalize(data, now).profile;
      && (data.profile.None? ==> p == Profile(None, None, None, None, None, []))
      && (data.profile.Some? ==>
            var g := data.profile.value;
            && p.firstName == g.firstName && p.lastName == g.lastName && p.avatar == g.avatar
            && p.dateOfBirth == g.dateOfBirth && p.bio == g.bio
            && (g.favoriteGenres.Some? ==> p.favoriteGenres == g.favoriteGenres.value)
            && (g.favoriteGenres.None? ==> p.favoriteGenres == []))
  {
  }

  /** Without preferences the record gets exactly the defaults: English, US,
      no adult content, every notification on except push, everything public
      and group invites allowed. */
  lemma NormalizeDefaultPreferences(data: UserData, now: Time)
    requires data.preferences.None?
    ensures var p := Normalize(data, now).preferences;
      && p.language == "en" && p.region == "US" && !p.adultContent
      && p.notifications.newRecommendations && p.notifications.groupInvites
      && p.notifications.movieUpdates && p.notifications.email && !p.notifications.push
      && p.privacy.profileVisibility == "public" && p.privacy.ratingsVisibility == "public"
      && p.privacy.allowGroupInvites
  {
  }

  /** With preferences, a supplied field wins and a missing one takes the
      default; the notification and privacy objects are merged flag by flag
      over their defaults, so a flag they leave out takes its default value. */
  lemma NormalizeSuppliedPreferences(data: UserData, now: Time)
    requires data.preferences.Some?
    ensures var p := Normalize(data, now).preferences;
      var g := data.preferences.value;
      && p.language == (if g.language.Some? then g.language.value else "en")
      && p.region == (if g.region.Some? then g.region.value else "US")
      && p.adultContent == (g.adultContent.Some? && g.adultContent.value)
      && (g.notifications.None? ==> p.notifications == DefaultNotifications)
      && (g.notifications.Some? ==>
            var n := g.notifications.value;
            && p.notifications.newRecommendations == (n.newRecommendations != Some(false))
            && p.notifications.groupInvites == (n.groupInvites != Some(false))
            && p.notifications.movieUpdates == (n.movieUpdates != Some(false))
            && p.notifications.email == (n.email != Some(false))
            && p.notifications.push == (n.push == Some(true)))
      && (g.privacy.None? ==> p.privacy == DefaultPrivacy)
      && (g.privacy.Some? ==>
            var v := g.privacy.value;
            && p.privacy.profileVisibility == (if v.profileVisibility.Some? then v.profileVisibility.value else "public")
            && p.privacy.ratingsVisibility == (if v.ratingsVisibility.Some? then v.ratingsVisibility.value else "public")
            && p.privacy.allowGroupInvites == (v.allowGroupInvites != Some(false)))
  {
  }

  /** Constructing a model from another model's `toJSON()` reproduces it:
      a normalised record is a fixed point of the constructor. */
  lemma NormalizeToJson(u: User, now: Time)
    ensures Normalize(ToJson(u), now) == u
  {
  }

  /** Normalisation is idempotent, whatever the clock reads the second time. */
  lemma NormalizeIdempotent(data: UserData, now: Time, later: Time)
    ensures Normalize(ToJson(Normalize(data, now)), later) == Normalize(data, now)
  {
    NormalizeToJson(Normalize(data, now), later);
  }

  /** The public view drops the password hash and nothing else: two records
      have the same public view exactly when they differ at most in their hash. */
  lemma PublicViewForgetsOnlyHash(u: User, v: User)
    ensures ToPublicJson(u) == ToPublicJson(v) <==> u.(passwordHash := v.passwordHash) == v
  {
  }
}
