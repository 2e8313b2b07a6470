/**
 * The channel resolver: from a user record to the one channel a
 * notification goes out on, or to no channel at all. It runs two passes:
 * rule 1 picks a candidate by tier, rule 2 downgrades a candidate that
 * needs an active session when the user is offline.
 */
module Resolver {
  import opened Wrappers
  import opened Users

  /** Channels that can only reach a user who is online. */
  predicate NeedsSession(c: string)
  {
    c == MOBILE || c == CHROME
  }

  /** The fallback order for an offline user whose candidate needs a session. */
  const OFFLINE_FALLBACK := [EMAIL, TEXT]

  /**
   * Reference definition: the position of the first channel of `order`
   * that is enabled, or `|order|` when none of them is.
   */
  function FirstEnabledAt(order: seq<string>, enabled: seq<string>): (k: nat)
    ensures k <= |order|
    ensures k < |order| ==> order[k] in enabled
    ensures forall j :: 0 <= j < k ==> order[j] !in enabled
    decreases |order|
  {
    if |order| == 0 then 0
    else if order[0] in enabled then 0
    else 1 + FirstEnabledAt(order[1..], enabled)
  }

  /** The first channel of `order` that is enabled, or None when none of them is. */
  function FirstEnabled(order: seq<string>, enabled: seq<string>): (c: Option<string>)
    ensures c.Some? ==> c.value in order && c.value in enabled
    ensures c.None? <==> forall k :: 0 <= k < |order| ==> order[k] !in enabled
    ensures c.Some? ==> exists k :: 0 <= k < |order| && order[k] == c.value &&
                          forall j :: 0 <= j < k ==> order[j] !in enabled
  {
    var k := FirstEnabledAt(order, enabled);
    if k < |order| then Some(order[k]) else None
  }

  /** The order in which rule 1 tries channels for a user of a given tier. */
  function TierOrder(u: User): seq<string>
  {
    match AccountType(u)
    case Subscribed => (match u.preferred case Some(p) => [p] case None => []) + [EMAIL]
    case Free => [EMAIL, CHROME]
  }

  /** Rule 1: the candidate channel chosen by tier. */
  function Candidate(u: User): (c: Option<string>)
    ensures c.None? || c.value in u.enabled
    ensures !u.subscribed ==> c == Some(EMAIL) || c == Some(CHROME) || c == None
    ensures u.subscribed && PreferenceEnabled(u) ==> c == u.preferred
    ensures u.subscribed && !PreferenceEnabled(u) && EMAIL in u.enabled ==> c == Some(EMAIL)
  {
    match AccountType(u)
    case Subscribed =>
      if PreferenceEnabled(u) then u.preferred
      else if EMAIL in u.enabled then Some(EMAIL)
      else None
    case Free =>
      if EMAIL in u.enabled then Some(EMAIL)
      else if CHROME in u.enabled then Some(CHROME)
      else None
  }

  /** Rule 2: the offline filter applied to a candidate. */
  function OfflineFilter(u: User, c: Option<string>): (r: Option<string>)
    ensures u.online ==> r == c
    ensures c.None? || !NeedsSession(c.value) ==> r == c
    ensures !u.online && c.Some? && NeedsSession(c.value) ==> r in {Some(EMAIL), Some(TEXT), None}
    ensures !u.online ==> r.None? || !NeedsSession(r.value)
    ensures r != c ==> r.None? || r.value in u.enabled
  {
    if !u.online && c.Some? && NeedsSession(c.value) then
      if EMAIL in u.enabled then Some(EMAIL)
      else if TEXT in u.enabled then Some(TEXT)
      else None
    else c
  }

  /**
   * The channel a notification to `u` goes out on: rule 1 followed by
   * rule 2.
   */
  function DetermineChannel(u: User): (r: Option<string>)
    ensures r.None? || r.value in u.enabled
    ensures !u.online ==> r != Some(MOBILE) && r != Some(CHROME)
    ensures u.online ==> r == Candidate(u)
    ensures !u.subscribed ==> r == Some(EMAIL) || r == Some(CHROME) || r == Some(TEXT) || r == None
    ensures u.subscribed && u.online && PreferenceEnabled(u) ==> r == u.preferred
    ensures u.subscribed && !PreferenceEnabled(u) && EMAIL in u.enabled ==> r == Some(EMAIL)
    ensures EMAIL in u.enabled ==> r.Some?
  {
    OfflineFilter(u, Candidate(u))
  }

  /** A free user's preference never influences the channel. */
  lemma FreeIgnoresPreference(u: User, p: Option<string>)
    requires !u.subscribed
    ensures DetermineChannel(u.(preferred := p)) == DetermineChannel(u)
  {
  }

  /** An online free user only ever gets Email, Chrome or nothing. */
  lemma OnlineFreeUserChannels(u: User)
    requires !u.subscribed && u.online
    ensures DetermineChannel(u) in {Some(EMAIL), Some(CHROME), None}
  {
  }

  /**
   * The filter downgrades at most once: applying it to its own result
   * changes nothing.
   */
  lemma OfflineFilterIdempotent(u: User, c: Option<string>)
    ensures OfflineFilter(u, OfflineFilter(u, c)) == OfflineFilter(u, c)
  {
  }

  /** Only which channels are enabled matters, not the order they were added in. */
  lemma FirstEnabledMembershipOnly(order: seq<string>, e1: seq<string>, e2: seq<string>)
    requires forall c :: c in e1 <==> c in e2
    ensures FirstEnabledAt(order, e1) == FirstEnabledAt(order, e2)
  {
  }

  lemma EnabledOrderIrrelevant(u: User, e: seq<string>)
    requires forall c :: c in e <==> c in u.enabled
    ensures DetermineChannel(u.(enabled := e)) == DetermineChannel(u)
  {
    FirstEnabledMembershipOnly(TierOrder(u), e, u.enabled);
    FirstEnabledMembershipOnly(OFFLINE_FALLBACK, e, u.enabled);
  }

  /** The reference on a list of two channels: the first if enabled, else the second if enabled. */
  lemma FirstEnabledPair(a: string, b: string, enabled: seq<string>)
    ensures FirstEnabled([a, b], enabled) ==
      if a in enabled then Some(a) else if b in enabled then Some(b) else None
  {
    assert [a, b][1..] == [b];
    assert [b][1..] == [];
    if a !in enabled {
      assert FirstEnabledAt([a, b], enabled) == 1 + FirstEnabledAt([b], enabled);
      if b !in enabled {
        assert FirstEnabledAt([b], enabled) == 1 + FirstEnabledAt([], enabled);
      }
    }
  }

  /** Rule 1 takes the first enabled channel of the tier's order. */
  lemma CandidateFollowsTierOrder(u: User)
    ensures Candidate(u) == FirstEnabled(TierOrder(u), u.enabled)
  {
    match AccountType(u)
    case Subscribed =>
      match u.preferred {
        case Some(p) =>
          assert TierOrder(u) == [p, EMAIL];
          FirstEnabledPair(p, EMAIL, u.enabled);
        case None =>
          assert TierOrder(u) == [EMAIL];
          assert [EMAIL][1..] == [];
      }
    case Free =>
      FirstEnabledPair(EMAIL, CHROME, u.enabled);
  }

  /** Rule 2 replaces a session channel by the first enabled channel of [Email, Text]. */
  lemma OfflineFilterFollowsFallback(u: User, c: Option<string>)
    requires !u.online && c.Some? && NeedsSession(c.value)
    ensures OfflineFilter(u, c) == FirstEnabled(OFFLINE_FALLBACK, u.enabled)
  {
    FirstEnabledPair(EMAIL, TEXT, u.enabled);
  }

  /** The resolver equals the two fallback orders applied one after the other. */
  lemma ResolverFollowsFallbackOrders(u: User)
    ensures DetermineChannel(u) ==
      var c := FirstEnabled(TierOrder(u), u.enabled);
      if !u.online && c.Some? && NeedsSession(c.value) then FirstEnabled(OFFLINE_FALLBACK, u.enabled) else c
  {
    CandidateFollowsTierOrder(u);
    var c := Candidate(u);
    if !u.online && c.Some? && NeedsSession(c.value) {
      OfflineFilterFollowsFallback(u, c);
    }
  }

  /** The seed records resolve to the channels the batch job would print for them. */
  lemma SeedDatabaseChannels()
    ensures DetermineChannel(SeedDatabase()[0]) == Some(MOBILE)
    ensures DetermineChannel(SeedDatabase()[1]) == Some(EMAIL)
    ensures DetermineChannel(SeedDatabase()[2]) == Some(EMAIL)
  {
  }

  /**
   * A free user without Email can get Text: an offline user whose rule 1
   * candidate is Chrome is downgraded to Text when Text is enabled.
   */
  lemma OfflineFreeUserGetsText(tag: string)
    ensures DetermineChannel(User(tag, false, false, Some(CHROME), [CHROME, TEXT])) == Some(TEXT)
  {
  }

  /** A free user with only Chrome enabled, offline, gets no channel. */
  lemma OfflineChromeOnlyGetsNothing(tag: string)
    ensures DetermineChannel(User(tag, false, false, None, [CHROME])) == None
  {
  }

  /** A subscriber whose preference is disabled and who has no Email gets no channel. */
  lemma DisabledPreferenceWithoutEmail(tag: string)
    ensures DetermineChannel(User(tag, true, true, Some(CHROME), [MOBILE])) == None
  {
  }

  /** "SMS" is not folded into "Text": an enabled "SMS" preference is returned as it is, offline too. */
  lemma SmsPreferenceKept(tag: string, online: bool)
    ensures DetermineChannel(User(tag, true, online, Some("SMS"), [EMAIL, "SMS"])) == Some("SMS")
  {
  }
}
