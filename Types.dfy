/** The account and user-profile records the authentication context holds. */
module Types {
  import opened Wrappers

  /** The account record the identity service returns from `account.get()`. */
  datatype Account = Account(
    id: string, createdAt: string, updatedAt: string,
    email: string, name: string, emailVerification: bool, phone: Option<string>)

  datatype Theme = Light | Dark
  datatype Currency = USD | EUR | GBP
  datatype KycStatus = Pending | Approved | Rejected

  datatype Notifications = Notifications(email: bool, sms: bool, push: bool)

  datatype Preferences = Preferences(theme: Theme, language: string, currency: Currency, notifications: Notifications)

  datatype Kyc = Kyc(status: KycStatus, documents: seq<string>, verificationDate: Option<string>)

  datatype UserConsent = UserConsent(marketing: bool, analytics: bool, necessary: bool, consentDate: string)

  /** `User`: the profile the context exposes as the current user. */
  datatype User = User(
    id: string, createdAt: string, updatedAt: string,
    email: string, name: string, emailVerification: bool,
    phone: Option<string>, avatar: Option<string>,
    preferences: Preferences, kyc: Kyc, gdprConsent: UserConsent)

  /** `Partial<User>`: each present key replaces the whole field. */
  datatype UserPatch = UserPatch(
    id: Option<string>, createdAt: Option<string>, updatedAt: Option<string>,
    email: Option<string>, name: Option<string>, emailVerification: Option<bool>,
    phone: Option<string>, avatar: Option<string>,
    preferences: Option<Preferences>, kyc: Option<Kyc>, gdprConsent: Option<UserConsent>)

  function Pick<T>(patched: Option<T>, kept: T): T
  {
    if patched.Some? then patched.value else kept
  }

  /** `{ ...user, ...data }`: a shallow merge, the patch winning key by key. */
  function Merge(u: User, d: UserPatch): (merged: User)
    ensures d == EmptyPatch ==> merged == u
  {
    User(Pick(d.id, u.id), Pick(d.createdAt, u.createdAt), Pick(d.updatedAt, u.updatedAt),
         Pick(d.email, u.email), Pick(d.name, u.name), Pick(d.emailVerification, u.emailVerification),
         if d.phone.Some? then d.phone else u.phone,
         if d.avatar.Some? then d.avatar else u.avatar,
         Pick(d.preferences, u.preferences), Pick(d.kyc, u.kyc), Pick(d.gdprConsent, u.gdprConsent))
  }

  const EmptyPatch := UserPatch(None, None, None, None, None, None, None, None, None, None, None)

  /** `{ ...a, ...b }` on two patches. */
  function Combine(a: UserPatch, b: UserPatch): UserPatch
  {
    UserPatch(
      if b.id.Some? then b.id else a.id,
      if b.createdAt.Some? then b.createdAt else a.createdAt,
      if b.updatedAt.Some? then b.updatedAt else a.updatedAt,
      if b.email.Some? then b.email else a.email,
      if b.name.Some? then b.name else a.name,
      if b.emailVerification.Some? then b.emailVerification else a.emailVerification,
      if b.phone.Some? then b.phone else a.phone,
      if b.avatar.Some? then b.avatar else a.avatar,
      if b.preferences.Some? then b.preferences else a.preferences,
      if b.kyc.Some? then b.kyc else a.kyc,
      if b.gdprConsent.Some? then b.gdprConsent else a.gdprConsent)
  }

  /** The merge takes every field the patch sets and keeps every field it
      leaves out. */
  lemma MergeFields(u: User, d: UserPatch)
    ensures Merge(u, d).id == if d.id.Some? then d.id.value else u.id
    ensures Merge(u, d).createdAt == if d.createdAt.Some? then d.createdAt.value else u.createdAt
    ensures Merge(u, d).updatedAt == if d.updatedAt.Some? then d.updatedAt.value else u.updatedAt
    ensures Merge(u, d).email == if d.email.Some? then d.email.value else u.email
    ensures Merge(u, d).name == if d.name.Some? then d.name.value else u.name
    ensures Merge(u, d).emailVerification == if d.emailVerification.Some? then d.emailVerification.value else u.emailVerification
    ensures Merge(u, d).phone == if d.phone.Some? then d.phone else u.phone
    ensures Merge(u, d).avatar == if d.avatar.Some? then d.avatar else u.avatar
    ensures Merge(u, d).preferences == if d.preferences.Some? then d.preferences.value else u.preferences
    ensures Merge(u, d).kyc == if d.kyc.Some? then d.kyc.value else u.kyc
    ensures Merge(u, d).gdprConsent == if d.gdprConsent.Some? then d.gdprConsent.value else u.gdprConsent
  {
  }

  /** Two merges in a row are one merge of the combined patch, and merging the
      same patch twice is merging it once. */
  lemma MergeLaws(u: User, a: UserPatch, b: UserPatch)
    ensures Merge(Merge(u, a), b) == Merge(u, Combine(a, b))
    ensures Merge(Merge(u, a), a) == Merge(u, a)
  {
  }
}
