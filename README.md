# Notification channel resolution, modelled in Dafny

This project models the decision core of a small role-based notification system for gamers. The system keeps user records in an in-memory database, each with:

- a gamer tag;
- a subscription flag, from which the tier (Subscribed or Free) is derived;
- an online flag;
- an optional preferred channel;
- an ordered list of enabled channels.

The centre of the system is the channel resolver (`determine_notification_channel`). It picks one delivery channel for a user, or none, in two passes:

- **Rule 1 (tier).** A Subscribed user gets their preference if it is enabled, otherwise Email. A Free user gets Email, otherwise Chrome.
- **Rule 2 (offline filter).** An offline user whose candidate is "Mobile Notification" or "Chrome" is downgraded to Email, otherwise Text, otherwise nothing.

Around the resolver sit the record store and the account flow:

- lookup by tag;
- login, which marks a record online;
- account creation, whose enabled channels depend on the tier;
- the guarded preference update;
- the interactive login flow that joins them;
- the batch job that resolves every record.

Files:

- `wrappers.dfy`: the `Option` type.
- `users.dfy` (module `Users`):
  - the `User` record;
  - the four channel names, spelled as the records spell them;
  - the tier;
  - the three seed records.
- `resolver.dfy` (module `Resolver`):
  - the two rules as pure functions;
  - a reference definition by ordered fallback lists (`FirstEnabled`);
  - the resolver's properties.
- `store.dfy` (module `Store`):
  - pure specifications of lookup, login, account creation, the preference update and the whole login flow;
  - the invariants the flow preserves;
  - the class `UserStore`, which holds the database as a `seq<User>`. Its methods change the database in place and are proved against those specifications.

Python records are mutable dictionaries shared by reference. Here a record is a value, and "the record `find_user` returns" is named by its position in the store.

## Model

| member | source | states |
|---|---|---|
| Users.AccountType | Project.py:46-51 | The tier is Subscribed exactly when the record is subscribed, and Free otherwise. |
| Resolver.FirstEnabledAt | Project.py:69-94 | Reference for the fallback chains, by position. Every entry of the order list before the returned position is disabled. The entry at the position, if any, is enabled. |
| Resolver.FirstEnabled | Project.py:69-94 | The first enabled channel of an order list. The result is an enabled member of the list, and an entry precedes it only if that entry is disabled. The result is None exactly when no entry of the list is enabled. |
| Resolver.FirstEnabledPair | Project.py:77-80 | On a two-channel order the reference is an `if`/`elif` chain: the first channel if enabled, the second if enabled, otherwise None. |
| Resolver.Candidate | Project.py:66-80 | Rule 1. The candidate is None or enabled. A Free user's candidate is Email, Chrome or None. A Subscribed user with an enabled preference gets it. Otherwise, with Email enabled, the user gets Email. |
| Resolver.OfflineFilter | Project.py:82-94 | Rule 2. An online user keeps the candidate. So does a user whose candidate is None or does not need a session. An offline user with a Mobile or Chrome candidate gets Email, Text or None. The result never needs a session when the user is offline. A changed result is None or enabled. |
| Resolver.DetermineChannel | Project.py:54-96 | The result is None or an enabled channel. An offline user never gets "Mobile Notification" or "Chrome". An online user gets the rule 1 candidate unchanged. A Free user gets only Email, Chrome, Text or None. An online Subscribed user with an enabled preference gets exactly it. A Subscribed user whose preference is disabled gets Email when Email is enabled. Email enabled guarantees some channel. |
| Resolver.FreeIgnoresPreference | Project.py:75-80 | Changing a Free user's preference never changes the result. |
| Resolver.OnlineFreeUserChannels | Project.py:75-84 | An online Free user's result lies in {Email, Chrome, None}. |
| Resolver.OfflineFilterIdempotent | Project.py:84-94 | The filter changes a candidate at most once: applying it to its own result changes nothing, so nothing is re-escalated. |
| Resolver.FirstEnabledMembershipOnly | Project.py:69-92 | A fallback chain depends only on which channels are enabled, not on the order of the enabled list. |
| Resolver.EnabledOrderIrrelevant | Project.py:61-94 | Two enabled lists with the same members give the same channel. |
| Resolver.CandidateFollowsTierOrder | Project.py:67-80 | Rule 1 equals the first enabled channel of the tier's order: [preference, Email] for Subscribed (just [Email] with no preference), [Email, Chrome] for Free. |
| Resolver.OfflineFilterFollowsFallback | Project.py:84-94 | For an offline user with a Mobile or Chrome candidate, rule 2 gives the first enabled channel of [Email, Text], or None. |
| Resolver.ResolverFollowsFallbackOrders | Project.py:64-96 | The resolver equals the reference: first enabled of the tier order, then, for an offline user whose candidate needs a session, first enabled of [Email, Text]. |
| Resolver.SeedDatabaseChannels | Project.py:54-96 | The seed records resolve as follows: EpicBobA to "Mobile Notification", TF2Merc to "Email", offline XxSwagLord69xX to "Email". |
| Resolver.OfflineFreeUserGetsText | Project.py:77-92 | An offline Free user with [Chrome, Text] enabled gets "Text": the Chrome candidate is downgraded, so a Free user is not limited to {Email, Chrome, None}. |
| Resolver.OfflineChromeOnlyGetsNothing | Project.py:77-94 | An offline Free user with only Chrome enabled gets no channel. |
| Resolver.DisabledPreferenceWithoutEmail | Project.py:67-73 | A Subscribed user preferring a disabled Chrome, with no Email enabled, gets no channel. |
| Resolver.SmsPreferenceKept | Project.py:69-85 | An enabled "SMS" preference is returned as it is, online or offline. It is not folded into "Text". |
| Store.FirstMatch | Project.py:26-31 | Lookup: None exactly when no record carries the tag. Otherwise it is a position whose record carries the tag, and no earlier record does. |
| Store.LoggedIn | Project.py:34-43 | The store after a login. Without a match it is unchanged. With a match, only the first matching record changes, and only its online flag, which becomes true. |
| Store.NewAccount | Project.py:173-198 | A new record has the given tag, is online and has no preference. It starts with Email. It is subscribed exactly when the user said yes and gave payment; then it enables [Email, Mobile Notification, Text], otherwise [Email, Chrome]. Its first resolution is Email. |
| Store.WithPreference | Project.py:229-237 | The guarded update stores the choice only when it is enabled, and otherwise leaves the record unchanged. Only the preference can change. A preference stored this way is enabled, so "preference set implies enabled" is preserved. |
| Store.LoginFlow | Project.py:147-237 | The interactive flow. It creates an account exactly when the tag is unknown, and then the store grows by one. The record acted on carries the tag and is online. Every other record is unchanged. A known record changes only its online flag and its preference. A created record is the new-account record, with the accepted choice as its only possible change. Pending alerts are forwarded exactly when a known record already had a preference set up. They go out on its rule 1 candidate, and the record only goes online. An accepted choice is stored and enabled. A rejected outcome carries the typed choice, which is not enabled, and a known record's preference is kept. |
| Store.LoginFlowPreservesInvariants | Project.py:160-237 | The flow preserves three invariants: unique tags, "every set preference is enabled", and "Email enabled on every record". |
| Store.ReplayPreservesInvariants | Project.py:147-237 | Running the interactive flow any number of times keeps unique tags, "every set preference is enabled" and "Email enabled on every record". |
| Store.ReachableStoresResolve | Project.py:1-237 | Every database reachable from the seed records by runs of the interactive flow has unique tags, and every record in it resolves to some channel. |
| Store.LoginRestoresCandidate | Project.py:34-43 | After a login the matched record resolves to its rule 1 candidate: the offline filter no longer applies to it. |
| Store.SeedDatabaseInvariants | Project.py:1-23 | The seed database has unique tags, only enabled preferences, and Email enabled on every record. |
| Store.UserStore.Seeded | Project.py:1-23 | The database starts as the three seed records. |
| Store.UserStore.FindUser | Project.py:26-31 | The loop returns the first position whose record carries the tag, or None. |
| Store.UserStore.HandleLogin | Project.py:34-43 | Returns true exactly when some record carries the tag. The new store is the logged-in store, so nothing changes on failure. |
| Store.UserStore.CreateAccount | Project.py:173-201 | Appends the new-account record and changes nothing else. |
| Store.UserStore.SetPreference | Project.py:229-231 | Accepts exactly when the choice is enabled. Only the record at the given position changes, by the guarded update. |
| Store.UserStore.InteractiveLogin | Project.py:147-237 | The new store, the created flag and the outcome are those of the login flow applied to the old store. |
| Store.UserStore.BatchChannels | Project.py:120-142 | One decision per record, in store order, each equal to the resolver's result for that record. |

## Left out

- Console I/O: every `print` and `input` (Project.py:39, 42, 102-115, 125-142, 152-241) is left out. The answers the interactive flow reads become parameters:
  - `subscribe` stands for `sub_choice.lower() == 'yes'`. No case folding is modelled.
  - `paid` stands for the payment text being non-empty.
  - `choice` stands for the preference typed at the menu.
- `send_notification` (Project.py:99-115) only prints. The model keeps the channel each notification would go out on:
  - the resolver's result for forwarded alerts (`Outcome.Forwarded`);
  - the stored preference itself for the confirmation (`Outcome.PreferenceSet`).
- `run_batch_notification_job` (Project.py:120-142) is modelled only as the sequence of decisions, in store order (`BatchChannels`). Its printing and message text are left out.
- The `__main__` block (Project.py:246-255) is left out.
- Python's defaults for missing keys (`get` with `[]` and `False`, Project.py:61-62) are not modelled: every record carries all five fields. A record created at Project.py:173-177 has no preference key and is modelled with an unset preference.
- Aliasing: records are values identified by their position. The in-place mutation of a dictionary shared between `user` and the database is modelled as an update of the store's sequence at that position.
- "SMS" and "Text" are different strings to the resolver: "SMS" is only printed like Text in `send_notification`. `SmsPreferenceKept` shows that an enabled "SMS" preference is returned as it is.
- The enabled channels are a list, and the resolver only tests membership in it. `EnabledOrderIrrelevant` shows that the order of the list does not change the result.
- A "yes" without payment details gives a Free account (Project.py:187-192).
- A Free user only gets Email, Chrome or no channel while online (`OnlineFreeUserChannels`). An offline Free user without Email whose candidate is Chrome is downgraded to "Text" if Text is enabled (`OfflineFreeUserGetsText`), so `DetermineChannel` allows Text for Free users.
