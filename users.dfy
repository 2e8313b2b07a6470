/**
 * User records of the notification system, the channel names they mention,
 * the account tier derived from a record, and the three seed records the
 * in-memory database starts with.
 */
module Users {
  import opened Wrappers

  /** The channel names exactly as the records spell them. */
  const EMAIL := "Email"
  const MOBILE := "Mobile Notification"
  const CHROME := "Chrome"
  const TEXT := "Text"

  /** Account tier; it is not stored but derived from `subscribed`. */
  datatype Tier = Subscribed | Free

  /**
   * One user record: the gamer tag, the subscription flag, the login
   * status, the preferred channel (unset when absent) and the enabled
   * channels in the order they were added.
   */
  datatype User = User(
    tag: string,
    subscribed: bool,
    online: bool,
    preferred: Option<string>,
    enabled: seq<string>)

  /** The tier of a user: Subscribed exactly when the record is subscribed. */
  function AccountType(u: User): (t: Tier)
    ensures t == Subscribed <==> u.subscribed
  {
    if u.subscribed then Subscribed else Free
  }

  /** True when the user's preference is set and names an enabled channel. */
  predicate PreferenceEnabled(u: User)
  {
    u.preferred.Some? && u.preferred.value in u.enabled
  }

  /** The records the database holds when the program starts. */
  function SeedDatabase(): seq<User>
  {
    [ User("EpicBobA", true, true, Some(MOBILE), [EMAIL, MOBILE, TEXT]),
      User("TF2Merc", false, true, Some(CHROME), [EMAIL, CHROME]),
      User("XxSwagLord69xX", true, false, Some(MOBILE), [EMAIL, MOBILE]) ]
  }
}
