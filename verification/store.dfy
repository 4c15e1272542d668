/** The document store as the resolvers see it: four collections, the
    find-one queries they issue, and the invariant every resolver keeps.
    A find-one answers with the first matching document; an update-one
    issued with the same query replaces that document; a save appends. */
module Store {
  import opened Common
  import opened SubLists
  import Profiles
  import Mowers
  import Mowings
  import Forums

  datatype State = State(
    profiles: seq<Profiles.Profile>, mowers: seq<Mowers.Mower>,
    mowings: seq<Mowings.Mowing>, forums: seq<Forums.Forum>)

  /** A mutation's reported status together with the store it leaves. */
  datatype Reply = Reply(status: Status, state: State)

  /** `findOne({account_id})` on the profiles. */
  function AccountIndex(ps: seq<Profiles.Profile>, accountId: string): (r: Option<nat>)
    ensures r.None? <==> forall i :: 0 <= i < |ps| ==> ps[i].accountId != accountId
    ensures r.Some? ==> r.value < |ps| && ps[r.value].accountId == accountId
    ensures r.Some? ==> forall j :: 0 <= j < r.value ==> ps[j].accountId != accountId
  {
    FirstIndex(ps, (p: Profiles.Profile) => p.accountId == accountId)
  }

  /** `findOne({username})` on the profiles. */
  function UsernameIndex(ps: seq<Profiles.Profile>, username: string): (r: Option<nat>)
    ensures r.None? <==> forall i :: 0 <= i < |ps| ==> ps[i].username != username
    ensures r.Some? ==> r.value < |ps| && ps[r.value].username == username
    ensures r.Some? ==> forall j :: 0 <= j < r.value ==> ps[j].username != username
  {
    FirstIndex(ps, (p: Profiles.Profile) => p.username == username)
  }

  /** `findOne({security_code})` on the profiles. */
  function CodeIndex(ps: seq<Profiles.Profile>, securityCode: string): (r: Option<nat>)
    ensures r.None? <==> forall i :: 0 <= i < |ps| ==> ps[i].securityCode != securityCode
    ensures r.Some? ==> r.value < |ps| && ps[r.value].securityCode == securityCode
    ensures r.Some? ==> forall j :: 0 <= j < r.value ==> ps[j].securityCode != securityCode
  {
    FirstIndex(ps, (p: Profiles.Profile) => p.securityCode == securityCode)
  }

  /** `findOne({username, account_id})` on the profiles: the owner lookup of
      the create resolvers. */
  function OwnerIndex(ps: seq<Profiles.Profile>, username: string, accountId: string): (r: Option<nat>)
    ensures r.None? <==> forall i :: 0 <= i < |ps| ==> ps[i].username != username || ps[i].accountId != accountId
    ensures r.Some? ==> r.value < |ps| && ps[r.value].username == username && ps[r.value].accountId == accountId
    ensures r.Some? ==> forall j :: 0 <= j < r.value ==> ps[j].username != username || ps[j].accountId != accountId
  {
    FirstIndex(ps, (p: Profiles.Profile) => p.username == username && p.accountId == accountId)
  }

  /** `findOne({shortid})` on the mowers. */
  function MowerIndex(ms: seq<Mowers.Mower>, shortid: string): (r: Option<nat>)
    ensures r.None? <==> forall i :: 0 <= i < |ms| ==> ms[i].shortid != shortid
    ensures r.Some? ==> r.value < |ms| && ms[r.value].shortid == shortid
    ensures r.Some? ==> forall j :: 0 <= j < r.value ==> ms[j].shortid != shortid
  {
    FirstIndex(ms, (m: Mowers.Mower) => m.shortid == shortid)
  }

  /** `findOne({shortid})` on the mowings. */
  function MowingIndex(ms: seq<Mowings.Mowing>, shortid: string): (r: Option<nat>)
    ensures r.None? <==> forall i :: 0 <= i < |ms| ==> ms[i].shortid != shortid
    ensures r.Some? ==> r.value < |ms| && ms[r.value].shortid == shortid
    ensures r.Some? ==> forall j :: 0 <= j < r.value ==> ms[j].shortid != shortid
  {
    FirstIndex(ms, (m: Mowings.Mowing) => m.shortid == shortid)
  }

  /** `findOne({shortid})` on the forums. */
  function ForumIndex(fs: seq<Forums.Forum>, shortid: string): (r: Option<nat>)
    ensures r.None? <==> forall i :: 0 <= i < |fs| ==> fs[i].shortid != shortid
    ensures r.Some? ==> r.value < |fs| && fs[r.value].shortid == shortid
    ensures r.Some? ==> forall j :: 0 <= j < r.value ==> fs[j].shortid != shortid
  {
    FirstIndex(fs, (f: Forums.Forum) => f.shortid == shortid)
  }

  /** The store invariant: usernames and account ids identify one profile
      each, and every document satisfies its aggregate's invariant (capped
      lists within bounds, sub-entity ids unique, linkage entries unique). */
  ghost predicate WellFormed(st: State) {
    && (forall i, j :: 0 <= i < j < |st.profiles| ==> st.profiles[i].username != st.profiles[j].username)
    && (forall i, j :: 0 <= i < j < |st.profiles| ==> st.profiles[i].accountId != st.profiles[j].accountId)
    && (forall i :: 0 <= i < |st.profiles| ==> Profiles.Valid(st.profiles[i]))
    && (forall i :: 0 <= i < |st.mowers| ==> Mowers.Valid(st.mowers[i]))
    && (forall i :: 0 <= i < |st.mowings| ==> Mowings.Valid(st.mowings[i]))
    && (forall i :: 0 <= i < |st.forums| ==> Forums.Valid(st.forums[i]))
  }

  /** What the id generator is trusted to deliver: an id used by no account
      and by no sub-entity anywhere in the store. */
  ghost predicate Fresh(st: State, id: string) {
    && (forall i :: 0 <= i < |st.profiles| ==> st.profiles[i].accountId != id && Profiles.Fresh(st.profiles[i], id))
    && (forall i :: 0 <= i < |st.mowers| ==> Mowers.Fresh(st.mowers[i], id))
    && (forall i :: 0 <= i < |st.mowings| ==> Mowings.Fresh(st.mowings[i], id))
    && (forall i :: 0 <= i < |st.forums| ==> Forums.Fresh(st.forums[i], id))
  }

  /** `st2` differs from `st` at most in the profile at `k`. */
  ghost predicate OnlyProfileChanged(st: State, st2: State, k: nat) {
    k < |st.profiles| && |st2.profiles| == |st.profiles|
    && st2 == st.(profiles := st.profiles[k := st2.profiles[k]])
  }

  /** `st2` differs from `st` at most in the mower at `k`. */
  ghost predicate OnlyMowerChanged(st: State, st2: State, k: nat) {
    k < |st.mowers| && |st2.mowers| == |st.mowers|
    && st2 == st.(mowers := st.mowers[k := st2.mowers[k]])
  }

  /** `st2` differs from `st` at most in the mowing at `k`. */
  ghost predicate OnlyMowingChanged(st: State, st2: State, k: nat) {
    k < |st.mowings| && |st2.mowings| == |st.mowings|
    && st2 == st.(mowings := st.mowings[k := st2.mowings[k]])
  }

  /** `st2` differs from `st` at most in the forum at `k`. */
  ghost predicate OnlyForumChanged(st: State, st2: State, k: nat) {
    k < |st.forums| && |st2.forums| == |st.forums|
    && st2 == st.(forums := st.forums[k := st2.forums[k]])
  }

  /** Replacing a profile by a valid one with the same username and account
      id keeps the store well formed. */
  lemma ReplaceProfile(st: State, k: nat, q: Profiles.Profile)
    requires WellFormed(st) && k < |st.profiles|
    requires Profiles.Valid(q)
    requires q.username == st.profiles[k].username && q.accountId == st.profiles[k].accountId
    ensures WellFormed(st.(profiles := st.profiles[k := q]))
  {
  }

  /** Renaming a profile to a username no other profile holds, keeping its
      account id, keeps the store well formed. */
  lemma RenameProfile(st: State, k: nat, q: Profiles.Profile)
    requires WellFormed(st) && k < |st.profiles|
    requires Profiles.Valid(q) && q.accountId == st.profiles[k].accountId
    requires forall i :: 0 <= i < |st.profiles| && i != k ==> st.profiles[i].username != q.username
    ensures WellFormed(st.(profiles := st.profiles[k := q]))
  {
    var ps := st.profiles[k := q];
    forall i, j | 0 <= i < j < |ps|
      ensures ps[i].username != ps[j].username
    {
      if i != k && j != k {
        assert ps[i] == st.profiles[i] && ps[j] == st.profiles[j];
      } else if i == k {
        assert ps[j] == st.profiles[j];
      } else {
        assert ps[i] == st.profiles[i];
      }
    }
  }

  /** Rewriting the profile a lookup by account id found, without touching
      its account id, leaves that lookup's answer as it was. */
  lemma AccountIndexAfterReplace(ps: seq<Profiles.Profile>, accountId: string, k: nat, q: Profiles.Profile)
    requires AccountIndex(ps, accountId) == Some(k)
    requires q.accountId == accountId
    ensures AccountIndex(ps[k := q], accountId) == Some(k)
  {
    var qs := ps[k := q];
    assert qs[k].accountId == accountId;
    forall j | 0 <= j < k
      ensures qs[j].accountId != accountId
    {
      assert qs[j] == ps[j];
    }
  }

  lemma ReplaceMower(st: State, k: nat, m: Mowers.Mower)
    requires WellFormed(st) && k < |st.mowers| && Mowers.Valid(m)
    ensures WellFormed(st.(mowers := st.mowers[k := m]))
  {
  }

  lemma ReplaceMowing(st: State, k: nat, m: Mowings.Mowing)
    requires WellFormed(st) && k < |st.mowings| && Mowings.Valid(m)
    ensures WellFormed(st.(mowings := st.mowings[k := m]))
  {
  }

  lemma ReplaceForum(st: State, k: nat, f: Forums.Forum)
    requires WellFormed(st) && k < |st.forums| && Forums.Valid(f)
    ensures WellFormed(st.(forums := st.forums[k := f]))
  {
  }
}
