/** The account resolvers: register, login and the four updateProfile*
    mutations, each a transform of the store. */
module Accounts {
  import opened Common
  import opened Store
  import opened Profiles

  /** What register and login hand back; empty strings signal failure. */
  datatype Cookie = Cookie(accountId: string, username: string)

  /** register: when no profile has `username`, save a new one under the
      freshly generated `freshId` with rate 1, no budget, no area and empty
      lists, and return its identifiers; otherwise return an empty account
      id and change nothing. */
  function Register(
    st: State, username: string, securityCode: string, telegramTag: string,
    region: string, cords: Cord, activityDay: string, mainPhoto: string, freshId: string): (r: (Cookie, State))
    ensures (exists i :: 0 <= i < |st.profiles| && st.profiles[i].username == username) ==>
      r == (Cookie("", username), st)
    ensures (forall i :: 0 <= i < |st.profiles| ==> st.profiles[i].username != username) ==>
      && r.0 == Cookie(freshId, username)
      && r.1 == st.(profiles := r.1.profiles)
      && |r.1.profiles| == |st.profiles| + 1
      && r.1.profiles[..|st.profiles|] == st.profiles
      && r.1.profiles[|st.profiles|]
         == Profile(freshId, username, securityCode, telegramTag, region, cords, activityDay,
                    1.0, 0.0, 0.0, mainPhoto, [], [], [])
  {
    match UsernameIndex(st.profiles, username)
    case Some(_) => (Cookie("", username), st)
    case None =>
      var p := Profile(freshId, username, securityCode, telegramTag, region, cords, activityDay,
                       1.0, 0.0, 0.0, mainPhoto, [], [], []);
      (Cookie(freshId, username), st.(profiles := st.profiles + [p]))
  }

  /** login: the identifiers of the first profile holding `securityCode`,
      or two empty strings when there is none. */
  function Login(st: State, securityCode: string): (c: Cookie)
    ensures (forall i :: 0 <= i < |st.profiles| ==> st.profiles[i].securityCode != securityCode) ==>
      c == Cookie("", "")
    ensures forall i :: 0 <= i < |st.profiles| && st.profiles[i].securityCode == securityCode
                        && (forall j :: 0 <= j < i ==> st.profiles[j].securityCode != securityCode) ==>
      c == Cookie(st.profiles[i].accountId, st.profiles[i].username)
  {
    match CodeIndex(st.profiles, securityCode)
    case Some(k) => Cookie(st.profiles[k].accountId, st.profiles[k].username)
    case None => Cookie("", "")
  }

  /** updateProfilePersonalInfo: on the profile with `accountId`, take the
      new username only when no profile already has it, and always set the
      photo; Error with nothing changed when the account is unknown. */
  function UpdateProfilePersonalInfo(st: State, accountId: string, username: string, mainPhoto: string): (r: Reply)
    ensures r.status != Raised
    ensures r.status == Error <==> AccountIndex(st.profiles, accountId).None?
    ensures r.status == Error ==> r.state == st
    ensures r.status == Success ==>
      var k := AccountIndex(st.profiles, accountId).value;
      && OnlyProfileChanged(st, r.state, k)
      && r.state.profiles[k] == st.profiles[k].(username := r.state.profiles[k].username, mainPhoto := mainPhoto)
      && ((forall i :: 0 <= i < |st.profiles| ==> st.profiles[i].username != username) ==>
            r.state.profiles[k].username == username)
      && ((exists i :: 0 <= i < |st.profiles| && st.profiles[i].username == username) ==>
            r.state.profiles[k].username == st.profiles[k].username)
  {
    match AccountIndex(st.profiles, accountId)
    case None => Reply(Error, st)
    case Some(k) =>
      var p := st.profiles[k];
      var name := if UsernameIndex(st.profiles, username).None? then username else p.username;
      Reply(Success, st.(profiles := st.profiles[k := p.(username := name, mainPhoto := mainPhoto)]))
  }

  /** updateProfileGeoInfo: set region and coordinates of the account. */
  function UpdateProfileGeoInfo(st: State, accountId: string, region: string, cords: Cord): (r: Reply)
    ensures r.status != Raised
    ensures r.status == Error <==> AccountIndex(st.profiles, accountId).None?
    ensures r.status == Error ==> r.state == st
    ensures r.status == Success ==>
      var k := AccountIndex(st.profiles, accountId).value;
      && OnlyProfileChanged(st, r.state, k)
      && r.state.profiles[k] == st.profiles[k].(region := region, cords := cords)
  {
    match AccountIndex(st.profiles, accountId)
    case None => Reply(Error, st)
    case Some(k) =>
      Reply(Success, st.(profiles := st.profiles[k := st.profiles[k].(region := region, cords := cords)]))
  }

  /** updateProfileLawncareInfo: set activity day and rate of the account. */
  function UpdateProfileLawncareInfo(st: State, accountId: string, activityDay: string, rate: real): (r: Reply)
    ensures r.status != Raised
    ensures r.status == Error <==> AccountIndex(st.profiles, accountId).None?
    ensures r.status == Error ==> r.state == st
    ensures r.status == Success ==>
      var k := AccountIndex(st.profiles, accountId).value;
      && OnlyProfileChanged(st, r.state, k)
      && r.state.profiles[k] == st.profiles[k].(activityDay := activityDay, rate := rate)
  {
    match AccountIndex(st.profiles, accountId)
    case None => Reply(Error, st)
    case Some(k) =>
      Reply(Success, st.(profiles := st.profiles[k := st.profiles[k].(activityDay := activityDay, rate := rate)]))
  }

  /** updateProfileSecurityCode: set the security code of the account. */
  function UpdateProfileSecurityCode(st: State, accountId: string, securityCode: string): (r: Reply)
    ensures r.status != Raised
    ensures r.status == Error <==> AccountIndex(st.profiles, accountId).None?
    ensures r.status == Error ==> r.state == st
    ensures r.status == Success ==>
      var k := AccountIndex(st.profiles, accountId).value;
      && OnlyProfileChanged(st, r.state, k)
      && r.state.profiles[k] == st.profiles[k].(securityCode := securityCode)
  {
    match AccountIndex(st.profiles, accountId)
    case None => Reply(Error, st)
    case Some(k) =>
      Reply(Success, st.(profiles := st.profiles[k := st.profiles[k].(securityCode := securityCode)]))
  }

  /** Registering the same username a second time answers with the empty
      account id and writes nothing, whatever the other inputs. */
  lemma RegisterTwice(
    st: State, username: string, securityCode: string, telegramTag: string,
    region: string, cords: Cord, activityDay: string, mainPhoto: string, freshId: string,
    securityCode2: string, telegramTag2: string, region2: string, cords2: Cord,
    activityDay2: string, mainPhoto2: string, freshId2: string)
    ensures var st1 := Register(st, username, securityCode, telegramTag, region, cords, activityDay, mainPhoto, freshId).1;
            Register(st1, username, securityCode2, telegramTag2, region2, cords2, activityDay2, mainPhoto2, freshId2)
            == (Cookie("", username), st1)
  {
    var st1 := Register(st, username, securityCode, telegramTag, region, cords, activityDay, mainPhoto, freshId).1;
    if forall i :: 0 <= i < |st.profiles| ==> st.profiles[i].username != username {
      assert st1.profiles[|st.profiles|].username == username;
    }
  }

  /** After a successful registration under a security code nobody used,
      logging in with that code yields the new account. */
  lemma LoginAfterRegister(
    st: State, username: string, securityCode: string, telegramTag: string,
    region: string, cords: Cord, activityDay: string, mainPhoto: string, freshId: string)
    requires forall i :: 0 <= i < |st.profiles| ==> st.profiles[i].username != username
    requires forall i :: 0 <= i < |st.profiles| ==> st.profiles[i].securityCode != securityCode
    ensures var st1 := Register(st, username, securityCode, telegramTag, region, cords, activityDay, mainPhoto, freshId).1;
            Login(st1, securityCode) == Cookie(freshId, username)
  {
    var st1 := Register(st, username, securityCode, telegramTag, region, cords, activityDay, mainPhoto, freshId).1;
    var n := |st.profiles|;
    assert st1.profiles[n].securityCode == securityCode;
    assert forall j :: 0 <= j < n ==> st1.profiles[j] == st.profiles[j];
  }

  /** Registration keeps the store well formed, given a fresh account id. */
  lemma RegisterKeepsWellFormed(
    st: State, username: string, securityCode: string, telegramTag: string,
    region: string, cords: Cord, activityDay: string, mainPhoto: string, freshId: string)
    requires WellFormed(st) && Store.Fresh(st, freshId)
    ensures WellFormed(Register(st, username, securityCode, telegramTag, region, cords, activityDay, mainPhoto, freshId).1)
  {
    var st1 := Register(st, username, securityCode, telegramTag, region, cords, activityDay, mainPhoto, freshId).1;
    if forall i :: 0 <= i < |st.profiles| ==> st.profiles[i].username != username {
      var n := |st.profiles|;
      assert forall j :: 0 <= j < n ==> st1.profiles[j] == st.profiles[j];
      assert st1.profiles[n].username == username && st1.profiles[n].accountId == freshId;
    }
  }

  /** Changing the username keeps usernames unique, because the new name
      is only taken when nobody holds it. */
  lemma UpdatePersonalInfoKeepsWellFormed(st: State, accountId: string, username: string, mainPhoto: string)
    requires WellFormed(st)
    ensures WellFormed(UpdateProfilePersonalInfo(st, accountId, username, mainPhoto).state)
  {
    var r := UpdateProfilePersonalInfo(st, accountId, username, mainPhoto);
    if r.status == Success {
      var k := AccountIndex(st.profiles, accountId).value;
      var q := r.state.profiles[k];
      if q.username == st.profiles[k].username {
        ReplaceProfile(st, k, q);
      } else {
        RenameProfile(st, k, q);
      }
    }
  }


  lemma UpdateGeoInfoKeepsWellFormed(st: State, accountId: string, region: string, cords: Cord)
    requires WellFormed(st)
    ensures WellFormed(UpdateProfileGeoInfo(st, accountId, region, cords).state)
  {
    var r := UpdateProfileGeoInfo(st, accountId, region, cords);
    if r.status == Success {
      var k := AccountIndex(st.profiles, accountId).value;
      ReplaceProfile(st, k, r.state.profiles[k]);
    }
  }

  lemma UpdateLawncareInfoKeepsWellFormed(st: State, accountId: string, activityDay: string, rate: real)
    requires WellFormed(st)
    ensures WellFormed(UpdateProfileLawncareInfo(st, accountId, activityDay, rate).state)
  {
    var r := UpdateProfileLawncareInfo(st, accountId, activityDay, rate);
    if r.status == Success {
      var k := AccountIndex(st.profiles, accountId).value;
      ReplaceProfile(st, k, r.state.profiles[k]);
    }
  }

  lemma UpdateSecurityCodeKeepsWellFormed(st: State, accountId: string, securityCode: string)
    requires WellFormed(st)
    ensures WellFormed(UpdateProfileSecurityCode(st, accountId, securityCode).state)
  {
    var r := UpdateProfileSecurityCode(st, accountId, securityCode);
    if r.status == Success {
      var k := AccountIndex(st.profiles, accountId).value;
      ReplaceProfile(st, k, r.state.profiles[k]);
    }
  }
}
