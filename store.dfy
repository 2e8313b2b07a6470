/**
 * The in-memory user database: lookup by gamer tag, login, account
 * creation, the guarded preference update, the interactive login flow
 * that strings them together, and the batch resolution of every record.
 * Records are values, so the record a lookup returns is named by its
 * position in the store.
 */
module Store {
  import opened Wrappers
  import opened Users
  import opened Resolver

  /** The position of the first record carrying `tag`, or None. */
  function FirstMatch(users: seq<User>, tag: string): (r: Option<nat>)
    ensures r.None? <==> forall i :: 0 <= i < |users| ==> users[i].tag != tag
    ensures r.Some? ==> r.value < |users| && users[r.value].tag == tag
    ensures r.Some? ==> forall j :: 0 <= j < r.value ==> users[j].tag != tag
    decreases |users|
  {
    if |users| == 0 then None
    else if users[0].tag == tag then Some(0)
    else match FirstMatch(users[1..], tag)
      case None => None
      case Some(k) => Some(k + 1)
  }

  /** The database after a login with `tag`: only the matched record goes online. */
  function LoggedIn(users: seq<User>, tag: string): (s: seq<User>)
    ensures |s| == |users|
    ensures FirstMatch(users, tag).None? ==> s == users
    ensures FirstMatch(users, tag).Some? ==>
      var k := FirstMatch(users, tag).value;
      s[k] == users[k].(online := true) &&
      forall i :: 0 <= i < |users| && i != k ==> s[i] == users[i]
  {
    match FirstMatch(users, tag)
    case None => users
    case Some(k) => users[k := users[k].(online := true)]
  }

  /** A record created at account creation, before any preference is chosen. */
  function NewAccount(tag: string, subscribe: bool, paid: bool): (u: User)
    ensures u.tag == tag && u.online && u.preferred.None?
    ensures u.subscribed <==> subscribe && paid
    ensures |u.enabled| > 0 && u.enabled[0] == EMAIL
    ensures u.subscribed ==> u.enabled == [EMAIL, MOBILE, TEXT]
    ensures !u.subscribed ==> u.enabled == [EMAIL, CHROME]
    ensures DetermineChannel(u) == Some(EMAIL)
  {
    var base := [EMAIL];
    if subscribe && paid then User(tag, true, true, None, base + [MOBILE, TEXT])
    else User(tag, false, true, None, base + [CHROME])
  }

  /** A preference is set up when it is present and non-empty. */
  predicate PreferenceSetUp(u: User)
  {
    u.preferred.Some? && u.preferred.value != ""
  }

  /** The guarded preference update: `choice` is stored only if it is enabled. */
  function WithPreference(u: User, choice: string): (v: User)
    ensures v.preferred == Some(choice) <==> choice in u.enabled || u.preferred == Some(choice)
    ensures choice !in u.enabled ==> v == u
    ensures v.preferred != u.preferred ==> PreferenceEnabled(v)
    ensures v.(preferred := u.preferred) == u
    ensures u.preferred.None? || PreferenceEnabled(u) ==> v.preferred.None? || PreferenceEnabled(v)
  {
    if choice in u.enabled then u.(preferred := Some(choice)) else u
  }

  /** Tags identify records. */
  predicate TagsUnique(users: seq<User>)
  {
    forall i, j :: 0 <= i < j < |users| ==> users[i].tag != users[j].tag
  }

  /** Every preference that is set names an enabled channel. */
  predicate PreferencesEnabled(users: seq<User>)
  {
    forall i :: 0 <= i < |users| ==> users[i].preferred.None? || PreferenceEnabled(users[i])
  }

  /** Every record has Email enabled. */
  predicate EmailEverywhere(users: seq<User>)
  {
    forall i :: 0 <= i < |users| ==> EMAIL in users[i].enabled
  }

  /** What the interactive flow does once the record is known. */
  datatype Outcome =
    | Forwarded(via: Option<string>)     // preference already set up: pending alerts go out on the resolved channel
    | PreferenceSet(pref: string)          // preference stored; the confirmation goes out on it
    | PreferenceRejected(choice: string)   // choice not enabled; nothing stored

  datatype Flow = Flow(db: seq<User>, created: bool, outcome: Outcome)

  /** The position of the record the flow acts on. */
  function FlowPosition(users: seq<User>, tag: string): nat
  {
    match FirstMatch(users, tag)
    case Some(k) => k
    case None => |users|
  }

  /**
   * The interactive login flow with the console answers as parameters:
   * `subscribe` is the yes/no answer, `paid` whether payment details were
   * given, `choice` the preference typed at the menu.
   */
  function LoginFlow(users: seq<User>, tag: string, subscribe: bool, paid: bool, choice: string): (f: Flow)
    ensures f.created <==> forall i :: 0 <= i < |users| ==> users[i].tag != tag
    ensures |f.db| == |users| + (if f.created then 1 else 0)
    ensures var p := FlowPosition(users, tag);
      p < |f.db| && f.db[p].tag == tag && f.db[p].online &&
      (forall i :: 0 <= i < |users| && i != p ==> f.db[i] == users[i]) &&
      (!f.created ==> f.db[p].(online := users[p].online, preferred := users[p].preferred) == users[p]) &&
      (f.created ==> f.db[p].(preferred := None) == NewAccount(tag, subscribe, paid)) &&
      (f.outcome.Forwarded? <==> !f.created && PreferenceSetUp(users[p])) &&
      (f.outcome.Forwarded? ==> f.outcome.via == Candidate(f.db[p]) && f.db[p] == users[p].(online := true)) &&
      (f.created && !f.outcome.PreferenceSet? ==> f.db[p] == NewAccount(tag, subscribe, paid)) &&
      (f.outcome.PreferenceSet? ==> f.outcome.pref == choice && f.db[p].preferred == Some(choice) && choice in f.db[p].enabled) &&
      (f.outcome.PreferenceRejected? ==> f.outcome.choice == choice && choice !in f.db[p].enabled && (f.created || f.db[p].preferred == users[p].preferred))
  {
    var p := FlowPosition(users, tag);
    var s := if FirstMatch(users, tag).Some? then LoggedIn(users, tag) else users + [NewAccount(tag, subscribe, paid)];
    var u := s[p];
    if PreferenceSetUp(u) then Flow(s, p == |users|, Forwarded(DetermineChannel(u)))
    else if choice in u.enabled then Flow(s[p := WithPreference(u, choice)], p == |users|, PreferenceSet(choice))
    else Flow(s, p == |users|, PreferenceRejected(choice))
  }

  /** The flow keeps tags unique, set preferences enabled, and Email enabled everywhere. */
  lemma LoginFlowPreservesInvariants(users: seq<User>, tag: string, subscribe: bool, paid: bool, choice: string)
    ensures TagsUnique(users) ==> TagsUnique(LoginFlow(users, tag, subscribe, paid, choice).db)
    ensures PreferencesEnabled(users) ==> PreferencesEnabled(LoginFlow(users, tag, subscribe, paid, choice).db)
    ensures EmailEverywhere(users) ==> EmailEverywhere(LoginFlow(users, tag, subscribe, paid, choice).db)
  {
  }

  /** One run of the interactive flow: the tag and the three answers given. */
  datatype LoginRequest = LoginRequest(tag: string, subscribe: bool, paid: bool, choice: string)

  /** The database after running the interactive flow once per request, in order. */
  function Replay(users: seq<User>, requests: seq<LoginRequest>): seq<User>
    decreases |requests|
  {
    if |requests| == 0 then users
    else
      var r := requests[0];
      Replay(LoginFlow(users, r.tag, r.subscribe, r.paid, r.choice).db, requests[1..])
  }

  /** Any number of runs of the flow keeps the three store invariants. */
  lemma {:induction false} ReplayPreservesInvariants(users: seq<User>, requests: seq<LoginRequest>)
    requires TagsUnique(users) && PreferencesEnabled(users) && EmailEverywhere(users)
    ensures var s := Replay(users, requests);
      TagsUnique(s) && PreferencesEnabled(s) && EmailEverywhere(s)
    decreases |requests|
  {
    if |requests| > 0 {
      var r := requests[0];
      LoginFlowPreservesInvariants(users, r.tag, r.subscribe, r.paid, r.choice);
      ReplayPreservesInvariants(LoginFlow(users, r.tag, r.subscribe, r.paid, r.choice).db, requests[1..]);
    }
  }

  /**
   * Every database reachable from the seed records by runs of the flow has
   * unique tags, and every record in it resolves to some channel.
   */
  lemma ReachableStoresResolve(requests: seq<LoginRequest>)
    ensures TagsUnique(Replay(SeedDatabase(), requests))
    ensures forall i :: 0 <= i < |Replay(SeedDatabase(), requests)| ==>
      DetermineChannel(Replay(SeedDatabase(), requests)[i]).Some?
  {
    SeedDatabaseInvariants();
    ReplayPreservesInvariants(SeedDatabase(), requests);
  }

  /** After a login the matched record gets its rule 1 candidate: the offline filter no longer applies. */
  lemma LoginRestoresCandidate(users: seq<User>, tag: string)
    requires FirstMatch(users, tag).Some?
    ensures DetermineChannel(LoggedIn(users, tag)[FirstMatch(users, tag).value]) ==
            Candidate(users[FirstMatch(users, tag).value])
  {
  }

  /** The seed database satisfies the three store invariants. */
  lemma SeedDatabaseInvariants()
    ensures TagsUnique(SeedDatabase())
    ensures PreferencesEnabled(SeedDatabase())
    ensures EmailEverywhere(SeedDatabase())
  {
  }

  /** The process-wide user database. */
  class UserStore {
    var users: seq<User>

    /** The database as the program starts with it. */
    constructor Seeded()
      ensures users == SeedDatabase()
    {
      users := SeedDatabase();
    }

    /** Lookup by tag: the position of the first record carrying it, or None. */
    method FindUser(tag: string) returns (found: Option<nat>)
      ensures found == FirstMatch(users, tag)
    {
      var i := 0;
      while i < |users|
        invariant 0 <= i <= |users|
        invariant forall j :: 0 <= j < i ==> users[j].tag != tag
        invariant FirstMatch(users, tag).None? || i <= FirstMatch(users, tag).value
      {
        if users[i].tag == tag {
          return Some(i);
        }
        i := i + 1;
      }
      return None;
    }

    /** Login: the first record carrying `tag` goes online; nothing changes if there is none. */
    method HandleLogin(tag: string) returns (ok: bool)
      modifies this
      ensures ok <==> exists i :: 0 <= i < |old(users)| && old(users)[i].tag == tag
      ensures users == LoggedIn(old(users), tag)
    {
      var found := FindUser(tag);
      if found.Some? {
        users := users[found.value := users[found.value].(online := true)];
        ok := true;
      } else {
        ok := false;
      }
    }

    /** Account creation: the new record goes at the end of the database. */
    method CreateAccount(tag: string, subscribe: bool, paid: bool)
      modifies this
      ensures users == old(users) + [NewAccount(tag, subscribe, paid)]
    {
      var enabled := [EMAIL];
      var subscribed: bool;
      if subscribe {
        if paid {
          subscribed := true;
          enabled := enabled + [MOBILE, TEXT];
        } else {
          subscribed := false;
          enabled := enabled + [CHROME];
        }
      } else {
        subscribed := false;
        enabled := enabled + [CHROME];
      }
      users := users + [User(tag, subscribed, true, None, enabled)];
    }

    /** The guarded preference update of the record at position `k`. */
    method SetPreference(k: nat, choice: string) returns (accepted: bool)
      requires k < |users|
      modifies this
      ensures accepted <==> choice in old(users)[k].enabled
      ensures users == old(users)[k := WithPreference(old(users)[k], choice)]
    {
      accepted := choice in users[k].enabled;
      if accepted {
        users := users[k := users[k].(preferred := Some(choice))];
      }
    }

    /** The interactive login flow against this database. */
    method InteractiveLogin(tag: string, subscribe: bool, paid: bool, choice: string)
      returns (created: bool, outcome: Outcome)
      modifies this
      ensures Flow(users, created, outcome) == LoginFlow(old(users), tag, subscribe, paid, choice)
    {
      var found := FindUser(tag);
      var p: nat;
      if found.Some? {
        var _ := HandleLogin(tag);
        p := found.value;
        created := false;
      } else {
        CreateAccount(tag, subscribe, paid);
        p := |users| - 1;
        created := true;
      }
      var user := users[p];
      if PreferenceSetUp(user) {
        outcome := Forwarded(DetermineChannel(user));
      } else {
        var accepted := SetPreference(p, choice);
        outcome := if accepted then PreferenceSet(choice) else PreferenceRejected(choice);
      }
    }

    /** The batch job's decisions: each record resolved, in store order. */
    method BatchChannels() returns (channels: seq<Option<string>>)
      ensures |channels| == |users|
      ensures forall i :: 0 <= i < |users| ==> channels[i] == DetermineChannel(users[i])
    {
      channels := [];
      for i := 0 to |users|
        invariant |channels| == i
        invariant forall j :: 0 <= j < i ==> channels[j] == DetermineChannel(users[j])
      {
        channels := channels + [DetermineChannel(users[i])];
      }
    }
  }
}
