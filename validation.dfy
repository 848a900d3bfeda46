/** The request-body schemas (`createUserSchema`, `loginSchema`,
    `updateUserSchema`, `refreshTokenSchema`) and what it means for a body to
    satisfy them. A schema is a value of `Schema`; `Validates` is the JSON
    Schema reading of the keywords these constants use (`type`, `required`,
    `properties`, `items`, `minLength`, `maxLength`, `pattern`, `format`,
    `enum`). Each constant is then proved equivalent to a predicate that spells
    out its requirements field by field. */
module Validation {
  import opened Outcomes

  /** A parsed JSON value. */
  datatype Json =
    | JNull
    | JBool(b: bool)
    | JNumber(n: int)
    | JString(s: string)
    | JArray(items: seq<Json>)
    | JObject(fields: map<string, Json>)

  /** The `format` names the schemas use. */
  datatype Format = EmailFormat | UriFormat | DateFormat | DateTimeFormat

  /** Which strings the validator accepts for each format. */
  type Formats = (Format, string) -> bool

  /** The one `pattern` the schemas use: `^[a-zA-Z0-9]+$`. */
  datatype Pattern = Alphanumeric

  datatype StringRule = StringRule(
    minLength: Option<nat>, maxLength: Option<nat>, pattern: Option<Pattern>,
    format: Option<Format>, allowed: Option<seq<string>>)

  datatype Property = Property(name: string, schema: Schema)

  datatype Schema =
    | StringSchema(rule: StringRule)
    | BooleanSchema
    | ArraySchema(items: Schema)
    | ObjectSchema(required: seq<string>, properties: seq<Property>)

  // ---------------------------------------------------------------------------
  // The validator

  predicate IsAlphanumeric(c: char) {
    ('a' <= c <= 'z') || ('A' <= c <= 'Z') || ('0' <= c <= '9')
  }

  /** Whether the whole string matches the pattern. */
  predicate Matches(p: Pattern, s: string) {
    match p
    case Alphanumeric => |s| >= 1 && forall i :: 0 <= i < |s| ==> IsAlphanumeric(s[i])
  }

  /** The string keywords; lengths count characters. */
  predicate StringOk(r: StringRule, s: string, formats: Formats) {
    && (r.minLength.Some? ==> |s| >= r.minLength.value)
    && (r.maxLength.Some? ==> |s| <= r.maxLength.value)
    && (r.pattern.Some? ==> Matches(r.pattern.value, s))
    && (r.format.Some? ==> formats(r.format.value, s))
    && (r.allowed.Some? ==> s in r.allowed.value)
  }

  /** `v` satisfies `schema`. The `type` keyword is checked first; an object
      must have its required keys, and every listed property it has must
      satisfy that property's schema; keys not listed are allowed. */
  predicate Validates(schema: Schema, v: Json, formats: Formats)
    decreases schema
  {
    match schema
    case StringSchema(rule) => v.JString? && StringOk(rule, v.s, formats)
    case BooleanSchema => v.JBool?
    case ArraySchema(items) =>
      v.JArray? && forall i :: 0 <= i < |v.items| ==> Validates(items, v.items[i], formats)
    case ObjectSchema(required, properties) =>
      && v.JObject?
      && (forall k :: k in required ==> k in v.fields)
      && (forall p :: p in properties ==> PropertyOk(p, v.fields, formats))
  }

  /** A listed property, when present, satisfies its schema. */
  predicate PropertyOk(p: Property, fields: map<string, Json>, formats: Formats)
    decreases p
  {
    p.name in fields ==> Validates(p.schema, fields[p.name], formats)
  }

  // ---------------------------------------------------------------------------
  // The schema constants

  const AnyString: Schema := StringSchema(StringRule(None, None, None, None, None))

  function MaxLength(n: nat): Schema {
    StringSchema(StringRule(None, Some(n), None, None, None))
  }

  function MinLength(n: nat): Schema {
    StringSchema(StringRule(Some(n), None, None, None, None))
  }

  function Formatted(f: Format): Schema {
    StringSchema(StringRule(None, None, None, Some(f), None))
  }

  const Visibilities: seq<string> := ["public", "friends", "private"]

  const TwoLetters: Schema := StringSchema(StringRule(Some(2), Some(2), None, None, None))
  const Visibility: Schema := StringSchema(StringRule(None, None, None, None, Some(Visibilities)))
  const Username: Schema := StringSchema(StringRule(Some(3), Some(30), Some(Alphanumeric), None, None))

  const ProfileSchema: Schema := ObjectSchema([], [
    Property("firstName", MaxLength(50)),
    Property("lastName", MaxLength(50)),
    Property("avatar", Formatted(UriFormat)),
    Property("dateOfBirth", Formatted(DateFormat)),
    Property("favoriteGenres", ArraySchema(AnyString)),
    Property("bio", MaxLength(500))])

  const NotificationsSchema: Schema := ObjectSchema([], [
    Property("newRecommendations", BooleanSchema),
    Property("groupInvites", BooleanSchema),
    Property("movieUpdates", BooleanSchema),
    Property("email", BooleanSchema),
    Property("push", BooleanSchema)])

  const PrivacySchema: Schema := ObjectSchema([], [
    Property("profileVisibility", Visibility),
    Property("ratingsVisibility", Visibility),
    Property("allowGroupInvites", BooleanSchema)])

  const PreferencesSchema: Schema := ObjectSchema([], [
    Property("language", TwoLetters),
    Property("region", TwoLetters),
    Property("adultContent", BooleanSchema),
    Property("notifications", NotificationsSchema),
    Property("privacy", PrivacySchema)])

  const SubscriptionSchema: Schema := ObjectSchema(["serviceId", "serviceName", "isActive", "addedAt"], [
    Property("serviceId", AnyString),
    Property("serviceName", AnyString),
    Property("isActive", BooleanSchema),
    Property("tier", AnyString),
    Property("addedAt", Formatted(DateTimeFormat))])

  /** `createUserSchema`. */
  function CreateUserSchema(): Schema {
    ObjectSchema(["email", "username", "password"], [
      Property("email", Formatted(EmailFormat)),
      Property("username", Username),
      Property("password", MinLength(8)),
      Property("profile", ProfileSchema),
      Property("preferences", PreferencesSchema)])
  }

  /** `loginSchema`. */
  function LoginSchema(): Schema {
    ObjectSchema(["email", "password"], [
      Property("email", Formatted(EmailFormat)),
      Property("password", AnyString)])
  }

  /** `updateUserSchema`: no `additionalProperties: false`, so other keys pass. */
  function UpdateUserSchema(): Schema {
    ObjectSchema([], [
      Property("profile", ProfileSchema),
      Property("preferences", PreferencesSchema),
      Property("streamingSubscriptions", ArraySchema(SubscriptionSchema))])
  }

  /** `refreshTokenSchema`. */
  function RefreshTokenSchema(): Schema {
    ObjectSchema(["refreshToken"], [
      Property("refreshToken", AnyString)])
  }

  // ---------------------------------------------------------------------------
  // The requirements, field by field

  predicate IsStringOfAtMost(v: Json, n: nat) {
    v.JString? && |v.s| <= n
  }

  predicate IsFormatted(v: Json, f: Format, formats: Formats) {
    v.JString? && formats(f, v.s)
  }

  predicate IsStringArray(v: Json) {
    v.JArray? && forall i :: 0 <= i < |v.items| ==> v.items[i].JString?
  }

  predicate IsTwoLetterCode(v: Json) {
    v.JString? && |v.s| == 2
  }

  predicate IsVisibility(v: Json) {
    v.JString? && (v.s == "public" || v.s == "friends" || v.s == "private")
  }

  /** 3 to 30 characters, letters and digits only. */
  predicate IsUsername(v: Json) {
    v.JString? && 3 <= |v.s| <= 30 && forall i :: 0 <= i < |v.s| ==> IsAlphanumeric(v.s[i])
  }

  predicate ValidProfile(v: Json, formats: Formats) {
    && v.JObject?
    && ("firstName" in v.fields ==> IsStringOfAtMost(v.fields["firstName"], 50))
    && ("lastName" in v.fields ==> IsStringOfAtMost(v.fields["lastName"], 50))
    && ("avatar" in v.fields ==> IsFormatted(v.fields["avatar"], UriFormat, formats))
    && ("dateOfBirth" in v.fields ==> IsFormatted(v.fields["dateOfBirth"], DateFormat, formats))
    && ("favoriteGenres" in v.fields ==> IsStringArray(v.fields["favoriteGenres"]))
    && ("bio" in v.fields ==> IsStringOfAtMost(v.fields["bio"], 500))
  }

  predicate ValidNotifications(v: Json) {
    && v.JObject?
    && ("newRecommendations" in v.fields ==> v.fields["newRecommendations"].JBool?)
    && ("groupInvites" in v.fields ==> v.fields["groupInvites"].JBool?)
    && ("movieUpdates" in v.fields ==> v.fields["movieUpdates"].JBool?)
    && ("email" in v.fields ==> v.fields["email"].JBool?)
    && ("push" in v.fields ==> v.fields["push"].JBool?)
  }

  predicate ValidPrivacy(v: Json) {
    && v.JObject?
    && ("profileVisibility" in v.fields ==> IsVisibility(v.fields["profileVisibility"]))
    && ("ratingsVisibility" in v.fields ==> IsVisibility(v.fields["ratingsVisibility"]))
    && ("allowGroupInvites" in v.fields ==> v.fields["allowGroupInvites"].JBool?)
  }

  predicate ValidPreferences(v: Json) {
    && v.JObject?
    && ("language" in v.fields ==> IsTwoLetterCode(v.fields["language"]))
    && ("region" in v.fields ==> IsTwoLetterCode(v.fields["region"]))
    && ("adultContent" in v.fields ==> v.fields["adultContent"].JBool?)
    && ("notifications" in v.fields ==> ValidNotifications(v.fields["notifications"]))
    && ("privacy" in v.fields ==> ValidPrivacy(v.fields["privacy"]))
  }

  predicate ValidSubscription(v: Json, formats: Formats) {
    && v.JObject?
    && "serviceId" in v.fields && v.fields["serviceId"].JString?
    && "serviceName" in v.fields && v.fields["serviceName"].JString?
    && "isActive" in v.fields && v.fields["isActive"].JBool?
    && "addedAt" in v.fields && IsFormatted(v.fields["addedAt"], DateTimeFormat, formats)
    && ("tier" in v.fields ==> v.fields["tier"].JString?)
  }

  /** A registration body: email, username and password present; an email-formatted
      email, a valid username, a password of at least 8 characters. */
  predicate ValidRegistration(v: Json, formats: Formats) {
    && v.JObject?
    && "email" in v.fields && IsFormatted(v.fields["email"], EmailFormat, formats)
    && "username" in v.fields && IsUsername(v.fields["username"])
    && "password" in v.fields && v.fields["password"].JString? && |v.fields["password"].s| >= 8
    && ("profile" in v.fields ==> ValidProfile(v.fields["profile"], formats))
    && ("preferences" in v.fields ==> ValidPreferences(v.fields["preferences"]))
  }

  /** A login body: an email-formatted email and any string as password. */
  predicate ValidLogin(v: Json, formats: Formats) {
    && v.JObject?
    && "email" in v.fields && IsFormatted(v.fields["email"], EmailFormat, formats)
    && "password" in v.fields && v.fields["password"].JString?
  }

  /** An update body: every part optional; each subscription complete. */
  predicate ValidUpdate(v: Json, formats: Formats) {
    && v.JObject?
    && ("profile" in v.fields ==> ValidProfile(v.fields["profile"], formats))
    && ("preferences" in v.fields ==> ValidPreferences(v.fields["preferences"]))
    && ("streamingSubscriptions" in v.fields ==> ValidSubscriptionList(v.fields["streamingSubscriptions"], formats))
  }

  predicate ValidSubscriptionList(v: Json, formats: Formats) {
    v.JArray? && forall i :: 0 <= i < |v.items| ==> ValidSubscription(v.items[i], formats)
  }

  /** A refresh body: a string `refreshToken`. */
  predicate ValidRefresh(v: Json) {
    v.JObject? && "refreshToken" in v.fields && v.fields["refreshToken"].JString?
  }

  // ---------------------------------------------------------------------------
  // Each schema means its requirements

  lemma StringArrayMeans(v: Json, formats: Formats)
    ensures Validates(ArraySchema(AnyString), v, formats) <==> IsStringArray(v)
  {
  }

  lemma ProfileSchemaSound(v: Json, formats: Formats)
    requires Validates(ProfileSchema, v, formats)
    ensures ValidProfile(v, formats)
  {
    var ps := ProfileSchema.properties;
    assert PropertyOk(ps[0], v.fields, formats) by { assert ps[0] in ps; }
    assert PropertyOk(ps[1], v.fields, formats) by { assert ps[1] in ps; }
    assert PropertyOk(ps[2], v.fields, formats) by { assert ps[2] in ps; }
    assert PropertyOk(ps[3], v.fields, formats) by { assert ps[3] in ps; }
    assert PropertyOk(ps[4], v.fields, formats) by { assert ps[4] in ps; }
    assert PropertyOk(ps[5], v.fields, formats) by { assert ps[5] in ps; }
    if "favoriteGenres" in v.fields {
      StringArrayMeans(v.fields["favoriteGenres"], formats);
    }
  }

  lemma ProfileSchemaComplete(v: Json, formats: Formats)
    requires ValidProfile(v, formats)
    ensures Validates(ProfileSchema, v, formats)
  {
    var ps := ProfileSchema.properties;
    if "favoriteGenres" in v.fields {
      StringArrayMeans(v.fields["favoriteGenres"], formats);
    }
    forall p | p in ps
      ensures PropertyOk(p, v.fields, formats)
    {
      assert p == ps[0] || p == ps[1] || p == ps[2] || p == ps[3] || p == ps[4] || p == ps[5];
    }
  }

  lemma ProfileSchemaMeans(v: Json, formats: Formats)
    ensures Validates(ProfileSchema, v, formats) <==> ValidProfile(v, formats)
  {
    if Validates(ProfileSchema, v, formats) {
      ProfileSchemaSound(v, formats);
    }
    if ValidProfile(v, formats) {
      ProfileSchemaComplete(v, formats);
    }
  }

  lemma NotificationsSchemaMeans(v: Json, formats: Formats)
    ensures Validates(NotificationsSchema, v, formats) <==> ValidNotifications(v)
  {
    if Validates(NotificationsSchema, v, formats) {
      var ps := NotificationsSchema.properties;
      assert ps[0] in ps && ps[1] in ps && ps[2] in ps && ps[3] in ps && ps[4] in ps;
    }
  }

  lemma PrivacySchemaMeans(v: Json, formats: Formats)
    ensures Validates(PrivacySchema, v, formats) <==> ValidPrivacy(v)
  {
    if Validates(PrivacySchema, v, formats) {
      var ps := PrivacySchema.properties;
      assert ps[0] in ps && ps[1] in ps && ps[2] in ps;
    }
  }

  lemma PreferencesSchemaMeans(v: Json, formats: Formats)
    ensures Validates(PreferencesSchema, v, formats) <==> ValidPreferences(v)
  {
    if v.JObject? {
      if "notifications" in v.fields {
        NotificationsSchemaMeans(v.fields["notifications"], formats);
      }
      if "privacy" in v.fields {
        PrivacySchemaMeans(v.fields["privacy"], formats);
      }
      if Validates(PreferencesSchema, v, formats) {
        var ps := PreferencesSchema.properties;
        assert ps[0] in ps && ps[1] in ps && ps[2] in ps && ps[3] in ps && ps[4] in ps;
      }
    }
  }

  lemma SubscriptionSchemaSound(v: Json, formats: Formats)
    requires Validates(SubscriptionSchema, v, formats)
    ensures ValidSubscription(v, formats)
  {
    var ps := SubscriptionSchema.properties;
    var req := SubscriptionSchema.required;
    assert req[0] in req && req[1] in req && req[2] in req && req[3] in req;
    assert PropertyOk(ps[0], v.fields, formats) by { assert ps[0] in ps; }
    assert PropertyOk(ps[1], v.fields, formats) by { assert ps[1] in ps; }
    assert PropertyOk(ps[2], v.fields, formats) by { assert ps[2] in ps; }
    assert PropertyOk(ps[3], v.fields, formats) by { assert ps[3] in ps; }
    assert PropertyOk(ps[4], v.fields, formats) by { assert ps[4] in ps; }
  }

  lemma SubscriptionSchemaComplete(v: Json, formats: Formats)
    requires ValidSubscription(v, formats)
    ensures Validates(SubscriptionSchema, v, formats)
  {
    var ps := SubscriptionSchema.properties;
    forall p | p in ps
      ensures PropertyOk(p, v.fields, formats)
    {
      assert p == ps[0] || p == ps[1] || p == ps[2] || p == ps[3] || p == ps[4];
    }
  }

  lemma SubscriptionSchemaMeans(v: Json, formats: Formats)
    ensures Validates(SubscriptionSchema, v, formats) <==> ValidSubscription(v, formats)
  {
    if Validates(SubscriptionSchema, v, formats) {
      SubscriptionSchemaSound(v, formats);
    }
    if ValidSubscription(v, formats) {
      SubscriptionSchemaComplete(v, formats);
    }
  }

  lemma SubscriptionListMeans(v: Json, formats: Formats)
    ensures Validates(ArraySchema(SubscriptionSchema), v, formats) <==> ValidSubscriptionList(v, formats)
  {
    if v.JArray? {
      forall i | 0 <= i < |v.items|
        ensures Validates(SubscriptionSchema, v.items[i], formats) <==> ValidSubscription(v.items[i], formats)
      {
        SubscriptionSchemaMeans(v.items[i], formats);
      }
    }
  }

  lemma UsernameMeans(v: Json, formats: Formats)
    ensures Validates(Username, v, formats) <==> IsUsername(v)
  {
  }

  /** A body satisfying the registration schema meets every requirement. */
  lemma CreateUserSchemaSound(v: Json, formats: Formats)
    requires Validates(CreateUserSchema(), v, formats)
    ensures ValidRegistration(v, formats)
  {
    var ps := CreateUserSchema().properties;
    var req := CreateUserSchema().required;
    assert req[0] in req && req[1] in req && req[2] in req;
    assert PropertyOk(ps[0], v.fields, formats) by { assert ps[0] in ps; }
    assert PropertyOk(ps[1], v.fields, formats) by { assert ps[1] in ps; }
    assert PropertyOk(ps[2], v.fields, formats) by { assert ps[2] in ps; }
    UsernameMeans(v.fields["username"], formats);
    if "profile" in v.fields {
      assert PropertyOk(ps[3], v.fields, formats) by { assert ps[3] in ps; }
      ProfileSchemaMeans(v.fields["profile"], formats);
    }
    if "preferences" in v.fields {
      assert PropertyOk(ps[4], v.fields, formats) by { assert ps[4] in ps; }
      PreferencesSchemaMeans(v.fields["preferences"], formats);
    }
  }

  /** A body meeting every registration requirement satisfies the schema. */
  lemma CreateUserSchemaComplete(v: Json, formats: Formats)
    requires ValidRegistration(v, formats)
    ensures Validates(CreateUserSchema(), v, formats)
  {
    var ps := CreateUserSchema().properties;
    UsernameMeans(v.fields["username"], formats);
    if "profile" in v.fields {
      ProfileSchemaMeans(v.fields["profile"], formats);
    }
    if "preferences" in v.fields {
      PreferencesSchemaMeans(v.fields["preferences"], formats);
    }
    forall p | p in ps
      ensures PropertyOk(p, v.fields, formats)
    {
      assert p == ps[0] || p == ps[1] || p == ps[2] || p == ps[3] || p == ps[4];
    }
  }

  /** The registration schema requires exactly what `ValidRegistration` says. */
  lemma CreateUserSchemaMeans(v: Json, formats: Formats)
    ensures Validates(CreateUserSchema(), v, formats) <==> ValidRegistration(v, formats)
  {
    if Validates(CreateUserSchema(), v, formats) {
      CreateUserSchemaSound(v, formats);
    }
    if ValidRegistration(v, formats) {
      CreateUserSchemaComplete(v, formats);
    }
  }

  lemma LoginSchemaMeans(v: Json, formats: Formats)
    ensures Validates(LoginSchema(), v, formats) <==> ValidLogin(v, formats)
  {
    if Validates(LoginSchema(), v, formats) {
      var ps := LoginSchema().properties;
      var req := LoginSchema().required;
      assert ps[0] in ps && ps[1] in ps;
      assert req[0] in req && req[1] in req;
    }
  }

  lemma UpdateUserSchemaMeans(v: Json, formats: Formats)
    ensures Validates(UpdateUserSchema(), v, formats) <==> ValidUpdate(v, formats)
  {
    if v.JObject? {
      if "profile" in v.fields {
        ProfileSchemaMeans(v.fields["profile"], formats);
      }
      if "preferences" in v.fields {
        PreferencesSchemaMeans(v.fields["preferences"], formats);
      }
      if "streamingSubscriptions" in v.fields {
        SubscriptionListMeans(v.fields["streamingSubscriptions"], formats);
      }
      if Validates(UpdateUserSchema(), v, formats) {
        var ps := UpdateUserSchema().properties;
        assert ps[0] in ps && ps[1] in ps && ps[2] in ps;
      }
    }
  }

  lemma RefreshTokenSchemaMeans(v: Json, formats: Formats)
    ensures Validates(RefreshTokenSchema(), v, formats) <==> ValidRefresh(v)
  {
    if Validates(RefreshTokenSchema(), v, formats) {
      var ps := RefreshTokenSchema().properties;
      var req := RefreshTokenSchema().required;
      assert ps[0] in ps;
      assert req[0] in req;
    }
  }

  // ---------------------------------------------------------------------------
  // Consequences

  /** Every valid registration body is also a valid login body; the converse
      fails, since a login password may be shorter than 8 characters. */
  lemma RegistrationStricterThanLogin(v: Json, formats: Formats)
    ensures Validates(CreateUserSchema(), v, formats) ==> Validates(LoginSchema(), v, formats)
    ensures var short := JObject(map["email" := JString("a@b.c"), "password" := JString("pw")]);
      formats(EmailFormat, "a@b.c") ==>
        Validates(LoginSchema(), short, formats) && !Validates(CreateUserSchema(), short, formats)
  {
    CreateUserSchemaMeans(v, formats);
    LoginSchemaMeans(v, formats);
    var short := JObject(map["email" := JString("a@b.c"), "password" := JString("pw")]);
    CreateUserSchemaMeans(short, formats);
    LoginSchemaMeans(short, formats);
  }

  /** The update schema looks only at its three declared keys: adding or
      replacing any other key never changes whether a body is accepted. */
  lemma UndeclaredKeyIgnored(fields: map<string, Json>, k: string, v: Json, formats: Formats)
    requires k != "profile" && k != "preferences" && k != "streamingSubscriptions"
    ensures Validates(UpdateUserSchema(), JObject(fields[k := v]), formats) <==>
            Validates(UpdateUserSchema(), JObject(fields), formats)
  {
    UpdateUserSchemaMeans(JObject(fields[k := v]), formats);
    UpdateUserSchemaMeans(JObject(fields), formats);
  }

  /** In particular a body that only renames the account, `{ "username": u }`,
      passes the update schema, whatever `u` is. */
  lemma UsernameKeyAccepted(u: string, formats: Formats)
    ensures Validates(UpdateUserSchema(), JObject(map["username" := JString(u)]), formats)
  {
    UpdateUserSchemaMeans(JObject(map[]), formats);
    UndeclaredKeyIgnored(map[], "username", JString(u), formats);
    assert map[]["username" := JString(u)] == map["username" := JString(u)];
  }
}
