/**
 * The profile and settings page: an editable profile record gated by an
 * edit flag, notification switches over a record of booleans, and privacy
 * switches that apply JavaScript's `!` to whatever each key holds, including
 * the string-valued profile visibility.
 */
module ProfilePage {

  /** The profile's fields, one per input. */
  datatype ProfileField =
    | FirstName | LastName | Email | Phone | DateOfBirth | Address | Bio
    | EmergencyContact | BloodType | Allergies | Medications

  /** `UserProfile`. */
  datatype UserProfile = UserProfile(
    firstName: string,
    lastName: string,
    email: string,
    phone: string,
    dateOfBirth: string,
    address: string,
    bio: string,
    emergencyContact: string,
    bloodType: string,
    allergies: string,
    medications: string)

  const InitialProfile := UserProfile(
    "John",
    "Doe",
    "john.doe@email.com",
    "+1 (555) 123-4567",
    "1990-05-15",
    "San Francisco, CA",
    "Health enthusiast passionate about wellness and fitness. Love tracking my progress with Sanavi!",
    "Jane Doe - +1 (555) 987-6543",
    "O+",
    "None",
    "Daily multivitamin")

  function FieldOf(p: UserProfile, f: ProfileField): string {
    match f
    case FirstName => p.firstName
    case LastName => p.lastName
    case Email => p.email
    case Phone => p.phone
    case DateOfBirth => p.dateOfBirth
    case Address => p.address
    case Bio => p.bio
    case EmergencyContact => p.emergencyContact
    case BloodType => p.bloodType
    case Allergies => p.allergies
    case Medications => p.medications
  }

  /** `{ ...prev, [f]: v }`: the one field replaced, every other field kept. */
  function WithProfileField(p: UserProfile, f: ProfileField, v: string): (r: UserProfile)
    ensures FieldOf(r, f) == v
    ensures forall g :: g != f ==> FieldOf(r, g) == FieldOf(p, g)
  {
    match f
    case FirstName => p.(firstName := v)
    case LastName => p.(lastName := v)
    case Email => p.(email := v)
    case Phone => p.(phone := v)
    case DateOfBirth => p.(dateOfBirth := v)
    case Address => p.(address := v)
    case Bio => p.(bio := v)
    case EmergencyContact => p.(emergencyContact := v)
    case BloodType => p.(bloodType := v)
    case Allergies => p.(allergies := v)
    case Medications => p.(medications := v)
  }

  /** Two profiles that agree on every field are the same profile. */
  lemma ProfileExtensional(p: UserProfile, q: UserProfile)
    requires forall f :: FieldOf(p, f) == FieldOf(q, f)
    ensures p == q
  {
    assert FieldOf(p, FirstName) == FieldOf(q, FirstName) && FieldOf(p, LastName) == FieldOf(q, LastName);
    assert FieldOf(p, Email) == FieldOf(q, Email) && FieldOf(p, Phone) == FieldOf(q, Phone);
    assert FieldOf(p, DateOfBirth) == FieldOf(q, DateOfBirth) && FieldOf(p, Address) == FieldOf(q, Address);
    assert FieldOf(p, Bio) == FieldOf(q, Bio) && FieldOf(p, EmergencyContact) == FieldOf(q, EmergencyContact);
    assert FieldOf(p, BloodType) == FieldOf(q, BloodType) && FieldOf(p, Allergies) == FieldOf(q, Allergies);
    assert FieldOf(p, Medications) == FieldOf(q, Medications);
  }

  /** Writing a field its own value changes nothing; of two writes to one field the last wins. */
  lemma FieldWrites(p: UserProfile, f: ProfileField, a: string, b: string)
    ensures WithProfileField(p, f, FieldOf(p, f)) == p
    ensures WithProfileField(WithProfileField(p, f, a), f, b) == WithProfileField(p, f, b)
  {
    ProfileExtensional(WithProfileField(p, f, FieldOf(p, f)), p);
    ProfileExtensional(WithProfileField(WithProfileField(p, f, a), f, b), WithProfileField(p, f, b));
  }

  // ---------------------------------------------------------------------------
  // Notifications.

  datatype NotificationKey = HealthReminders | MoodCheckIns | FitnessGoals | WeeklyReports | MarketingEmails

  /** `NotificationSettings`. */
  datatype Notifications = Notifications(
    healthReminders: bool,
    moodCheckIns: bool,
    fitnessGoals: bool,
    weeklyReports: bool,
    marketingEmails: bool)

  const InitialNotifications := Notifications(true, true, true, true, false)

  function NotificationOf(n: Notifications, k: NotificationKey): bool {
    match k
    case HealthReminders => n.healthReminders
    case MoodCheckIns => n.moodCheckIns
    case FitnessGoals => n.fitnessGoals
    case WeeklyReports => n.weeklyReports
    case MarketingEmails => n.marketingEmails
  }

  /** `{ ...prev, [k]: !prev[k] }` on the notification record. */
  function NotificationFlipped(n: Notifications, k: NotificationKey): (r: Notifications)
    ensures NotificationOf(r, k) == !NotificationOf(n, k)
    ensures forall j :: j != k ==> NotificationOf(r, j) == NotificationOf(n, j)
  {
    match k
    case HealthReminders => n.(healthReminders := !n.healthReminders)
    case MoodCheckIns => n.(moodCheckIns := !n.moodCheckIns)
    case FitnessGoals => n.(fitnessGoals := !n.fitnessGoals)
    case WeeklyReports => n.(weeklyReports := !n.weeklyReports)
    case MarketingEmails => n.(marketingEmails := !n.marketingEmails)
  }

  lemma NotificationsExtensional(n: Notifications, m: Notifications)
    requires forall k :: NotificationOf(n, k) == NotificationOf(m, k)
    ensures n == m
  {
    assert NotificationOf(n, HealthReminders) == NotificationOf(m, HealthReminders);
    assert NotificationOf(n, MoodCheckIns) == NotificationOf(m, MoodCheckIns);
    assert NotificationOf(n, FitnessGoals) == NotificationOf(m, FitnessGoals);
    assert NotificationOf(n, WeeklyReports) == NotificationOf(m, WeeklyReports);
    assert NotificationOf(n, MarketingEmails) == NotificationOf(m, MarketingEmails);
  }

  /** Flipping the same switch twice restores the settings; flips of two switches commute. */
  lemma NotificationFlips(n: Notifications, k: NotificationKey, j: NotificationKey)
    ensures NotificationFlipped(NotificationFlipped(n, k), k) == n
    ensures NotificationFlipped(NotificationFlipped(n, k), j) == NotificationFlipped(NotificationFlipped(n, j), k)
  {
    NotificationsExtensional(NotificationFlipped(NotificationFlipped(n, k), k), n);
    NotificationsExtensional(
      NotificationFlipped(NotificationFlipped(n, k), j), NotificationFlipped(NotificationFlipped(n, j), k));
  }

  // ---------------------------------------------------------------------------
  // Privacy.

  /** The values a privacy key can hold at run time: its declared string or boolean, or `!` of one. */
  datatype JsValue = JsBool(b: bool) | JsText(s: string)

  /** JavaScript truthiness: `false` and the empty string are falsy. */
  predicate Truthy(v: JsValue) {
    match v
    case JsBool(b) => b
    case JsText(s) => s != ""
  }

  /** JavaScript's `!`: always a boolean. */
  function JsNot(v: JsValue): (r: JsValue)
    ensures r.JsBool? && (r.b <==> !Truthy(v))
  {
    JsBool(!Truthy(v))
  }

  datatype PrivacyKey = ProfileVisibility | DataSharing | AnalyticsTracking | ThirdPartyIntegrations

  /** `PrivacySettings`, with each value as it is at run time. */
  datatype Privacy = Privacy(
    profileVisibility: JsValue,
    dataSharing: JsValue,
    analyticsTracking: JsValue,
    thirdPartyIntegrations: JsValue)

  const InitialPrivacy := Privacy(JsText("private"), JsBool(false), JsBool(true), JsBool(true))

  function PrivacyOf(p: Privacy, k: PrivacyKey): JsValue {
    match k
    case ProfileVisibility => p.profileVisibility
    case DataSharing => p.dataSharing
    case AnalyticsTracking => p.analyticsTracking
    case ThirdPartyIntegrations => p.thirdPartyIntegrations
  }

  /** `{ ...prev, [k]: !prev[k] }` on the privacy record. */
  function PrivacyFlipped(p: Privacy, k: PrivacyKey): (r: Privacy)
    ensures PrivacyOf(r, k) == JsNot(PrivacyOf(p, k))
    ensures forall j :: j != k ==> PrivacyOf(r, j) == PrivacyOf(p, j)
  {
    match k
    case ProfileVisibility => p.(profileVisibility := JsNot(p.profileVisibility))
    case DataSharing => p.(dataSharing := JsNot(p.dataSharing))
    case AnalyticsTracking => p.(analyticsTracking := JsNot(p.analyticsTracking))
    case ThirdPartyIntegrations => p.(thirdPartyIntegrations := JsNot(p.thirdPartyIntegrations))
  }

  lemma PrivacyExtensional(p: Privacy, q: Privacy)
    requires forall k :: PrivacyOf(p, k) == PrivacyOf(q, k)
    ensures p == q
  {
    assert PrivacyOf(p, ProfileVisibility) == PrivacyOf(q, ProfileVisibility);
    assert PrivacyOf(p, DataSharing) == PrivacyOf(q, DataSharing);
    assert PrivacyOf(p, AnalyticsTracking) == PrivacyOf(q, AnalyticsTracking);
    assert PrivacyOf(p, ThirdPartyIntegrations) == PrivacyOf(q, ThirdPartyIntegrations);
  }

  /** On a key holding a boolean, flipping twice restores the settings. */
  lemma BooleanPrivacyFlipTwice(p: Privacy, k: PrivacyKey)
    requires PrivacyOf(p, k).JsBool?
    ensures PrivacyFlipped(PrivacyFlipped(p, k), k) == p
  {
    PrivacyExtensional(PrivacyFlipped(PrivacyFlipped(p, k), k), p);
  }

  /**
   * On the visibility key a non-empty string such as "private" becomes
   * `false`, and flipping again gives `true`: the string is never restored.
   */
  lemma VisibilityFlipLosesString(p: Privacy)
    requires p.profileVisibility.JsText? && p.profileVisibility.s != ""
    ensures PrivacyFlipped(p, ProfileVisibility).profileVisibility == JsBool(false)
    ensures PrivacyFlipped(PrivacyFlipped(p, ProfileVisibility), ProfileVisibility).profileVisibility == JsBool(true)
    ensures PrivacyFlipped(PrivacyFlipped(p, ProfileVisibility), ProfileVisibility) != p
  {
    assert PrivacyOf(PrivacyFlipped(p, ProfileVisibility), ProfileVisibility) == JsBool(false);
  }

  /** The three visibility strings of the declared type. */
  predicate DeclaredVisibility(v: JsValue) {
    v == JsText("public") || v == JsText("private") || v == JsText("friends")
  }

  /** The page's state. */
  class ProfileSettings {
    var isEditing: bool
    var profileData: UserProfile
    var notifications: Notifications
    var privacy: Privacy

    /**
     * Every privacy key but visibility holds a boolean; visibility holds a
     * declared string until its switch is used, and a boolean from then on.
     */
    ghost predicate Valid()
      reads this
    {
      && (forall k :: k != ProfileVisibility ==> PrivacyOf(privacy, k).JsBool?)
      && (privacy.profileVisibility.JsBool? || DeclaredVisibility(privacy.profileVisibility))
    }

    constructor ()
      ensures Valid()
      ensures !isEditing && profileData == InitialProfile
      ensures notifications == InitialNotifications && privacy == InitialPrivacy
    {
      isEditing := false;
      profileData := InitialProfile;
      notifications := InitialNotifications;
      privacy := InitialPrivacy;
    }

    /** The Edit/Done button: flips the edit flag. */
    method ToggleEditing()
      requires Valid()
      modifies this
      ensures Valid()
      ensures isEditing == !old(isEditing)
      ensures profileData == old(profileData) && notifications == old(notifications) && privacy == old(privacy)
    {
      isEditing := !isEditing;
    }

    /** `handleSaveProfile`: leaves edit mode; the data were already in place. */
    method HandleSaveProfile()
      requires Valid()
      modifies this
      ensures Valid()
      ensures !isEditing
      ensures profileData == old(profileData) && notifications == old(notifications) && privacy == old(privacy)
    {
      isEditing := false;
    }

    /** An input's change handler; inputs are disabled outside edit mode. */
    method EditProfileField(f: ProfileField, v: string)
      requires Valid() && isEditing
      modifies this
      ensures Valid()
      ensures profileData == WithProfileField(old(profileData), f, v)
      ensures isEditing && notifications == old(notifications) && privacy == old(privacy)
    {
      profileData := WithProfileField(profileData, f, v);
    }

    /** `handleNotificationChange(key)`. */
    method HandleNotificationChange(k: NotificationKey)
      requires Valid()
      modifies this
      ensures Valid()
      ensures notifications == NotificationFlipped(old(notifications), k)
      ensures isEditing == old(isEditing) && profileData == old(profileData) && privacy == old(privacy)
    {
      notifications := NotificationFlipped(notifications, k);
    }

    /** `handlePrivacyChange(key)`. */
    method HandlePrivacyChange(k: PrivacyKey)
      requires Valid()
      modifies this
      ensures Valid()
      ensures privacy == PrivacyFlipped(old(privacy), k)
      ensures isEditing == old(isEditing) && profileData == old(profileData) && notifications == old(notifications)
    {
      privacy := PrivacyFlipped(privacy, k);
    }
  }

  /** A worked instance of `VisibilityFlipLosesString`: on a fresh page the visibility switch turns "private" into `false`. */
  method VisibilitySwitchOnFreshPage() returns (before: JsValue, after: JsValue)
    ensures before == JsText("private") && after == JsBool(false)
  {
    var page := new ProfileSettings();
    before := page.privacy.profileVisibility;
    page.HandlePrivacyChange(ProfileVisibility);
    after := page.privacy.profileVisibility;
  }
}
