/** The resolvers manageProfileOrder and manageProfileZone: look the
    profile up by account id, apply the order or zone transform, write the
    profile back. */
module ProfileMutations {
  import opened Common
  import opened SubLists
  import opened Store
  import opened Profiles

  function ManageProfileOrder(
    st: State, accountId: string, option: string, msg: string, square: real,
    cost: real, date: string, collId: string, freshId: string): (r: Reply)
    ensures r.status != Raised
    ensures r.status == Error <==> AccountIndex(st.profiles, accountId).None?
    ensures r.status == Error ==> r.state == st
    ensures r.status == Success ==>
      var k := AccountIndex(st.profiles, accountId).value;
      && OnlyProfileChanged(st, r.state, k)
      && r.state.profiles[k] == OrderStep(st.profiles[k], option, msg, square, cost, date, collId, freshId)
  {
    match AccountIndex(st.profiles, accountId)
    case None => Reply(Error, st)
    case Some(k) =>
      var q := OrderStep(st.profiles[k], option, msg, square, cost, date, collId, freshId);
      Reply(Success, st.(profiles := st.profiles[k := q]))
  }

  function ManageProfileZone(
    st: State, accountId: string, option: string, title: string, category: string,
    cords: Cord, square: real, status: string, photoUrl: string, collId: string, freshId: string): (r: Reply)
    ensures r.status != Raised
    ensures r.status == Error <==> AccountIndex(st.profiles, accountId).None?
    ensures r.status == Error ==> r.state == st
    ensures r.status == Success ==>
      var k := AccountIndex(st.profiles, accountId).value;
      && OnlyProfileChanged(st, r.state, k)
      && r.state.profiles[k] == ZoneStep(st.profiles[k], option, title, category, cords, square, status, photoUrl, collId, freshId)
  {
    match AccountIndex(st.profiles, accountId)
    case None => Reply(Error, st)
    case Some(k) =>
      var q := ZoneStep(st.profiles[k], option, title, category, cords, square, status, photoUrl, collId, freshId);
      Reply(Success, st.(profiles := st.profiles[k := q]))
  }

  /** The zone resolver on an account the lookup finds at `k`. */
  lemma ZoneResolverFound(
    st: State, accountId: string, k: nat, option: string, title: string, category: string,
    cords: Cord, square: real, status: string, photoUrl: string, collId: string, freshId: string)
    requires AccountIndex(st.profiles, accountId) == Some(k)
    ensures ManageProfileZone(st, accountId, option, title, category, cords, square, status, photoUrl, collId, freshId)
            == Reply(Success, st.(profiles := st.profiles[k := ZoneStep(st.profiles[k], option, title, category, cords,
                                                                        square, status, photoUrl, collId, freshId)]))
  {
  }

  /** A zone create followed by a zone delete on the same account writes
      the profile both zone transforms produce back at the account's index. */
  lemma ZoneCreateThenDelete(
    st: State, accountId: string, title: string, category: string, cords: Cord,
    square: real, status: string, photoUrl: string, collId: string, freshId: string)
    requires AccountIndex(st.profiles, accountId).Some?
    ensures
      var k := AccountIndex(st.profiles, accountId).value;
      var st1 := ManageProfileZone(st, accountId, "create", title, category, cords, square, status, photoUrl, collId, freshId).state;
      var p2 := ZoneStep(ZoneStep(st.profiles[k], "create", title, category, cords, square, status, photoUrl, collId, freshId),
                         "delete", title, category, cords, square, status, photoUrl, freshId, freshId);
      ManageProfileZone(st1, accountId, "delete", title, category, cords, square, status, photoUrl, freshId, freshId)
      == Reply(Success, st.(profiles := st.profiles[k := p2]))
  {
    var k := AccountIndex(st.profiles, accountId).value;
    var p1 := ZoneStep(st.profiles[k], "create", title, category, cords, square, status, photoUrl, collId, freshId);
    var st1 := st.(profiles := st.profiles[k := p1]);
    ZoneResolverFound(st, accountId, k, "create", title, category, cords, square, status, photoUrl, collId, freshId);
    AccountIndexAfterReplace(st.profiles, accountId, k, p1);
    ZoneResolverFound(st1, accountId, k, "delete", title, category, cords, square, status, photoUrl, freshId, freshId);
  }

  /** Through the store: creating a zone and deleting it by its new id with
      the same `square` restores the account's area, and restores the whole
      store when the zone list had room and the id was fresh. */
  lemma ZoneRoundTripThroughStore(
    st: State, accountId: string, title: string, category: string, cords: Cord,
    square: real, status: string, photoUrl: string, collId: string, freshId: string)
    requires AccountIndex(st.profiles, accountId).Some?
    ensures
      var st1 := ManageProfileZone(st, accountId, "create", title, category, cords, square, status, photoUrl, collId, freshId).state;
      var r2 := ManageProfileZone(st1, accountId, "delete", title, category, cords, square, status, photoUrl, freshId, freshId);
      var k := AccountIndex(st.profiles, accountId).value;
      && r2.status == Success
      && |r2.state.profiles| == |st.profiles|
      && r2.state.profiles[k].areaSize == st.profiles[k].areaSize
      && (|st.profiles[k].zones| < Cap && KeyAbsent(st.profiles[k].zones, ZoneKey, freshId) ==> r2.state == st)
  {
    var k := AccountIndex(st.profiles, accountId).value;
    var p := st.profiles[k];
    ZoneCreateThenDelete(st, accountId, title, category, cords, square, status, photoUrl, collId, freshId);
    ZoneAreaRoundTrip(p, title, category, cords, square, status, photoUrl, collId, freshId,
                      title, category, cords, status, photoUrl, freshId, freshId);
    if |p.zones| < Cap && KeyAbsent(p.zones, ZoneKey, freshId) {
      ZoneCreateDeleteRoundTrip(p, title, category, cords, square, status, photoUrl, collId, freshId);
      assert st.profiles[k := p] == st.profiles;
    }
  }

  /** Through the store: a repeated accept of the same order leaves the
      orders as the first accept left them and adds the cost once more. */
  lemma AcceptTwiceThroughStore(
    st: State, accountId: string, msg: string, square: real, cost: real,
    date: string, collId: string, freshId: string)
    requires AccountIndex(st.profiles, accountId).Some?
    ensures
      var r1 := ManageProfileOrder(st, accountId, "accept", msg, square, cost, date, collId, freshId);
      var r2 := ManageProfileOrder(r1.state, accountId, "accept", msg, square, cost, date, collId, freshId);
      var k := AccountIndex(st.profiles, accountId).value;
      && r1.status == Success && r2.status == Success
      && r2.state.profiles[k].orders == r1.state.profiles[k].orders
      && r2.state.profiles[k].budget == st.profiles[k].budget + 2.0 * cost
  {
    var k := AccountIndex(st.profiles, accountId).value;
    var p1 := OrderStep(st.profiles[k], "accept", msg, square, cost, date, collId, freshId);
    var st1 := st.(profiles := st.profiles[k := p1]);
    assert ManageProfileOrder(st, accountId, "accept", msg, square, cost, date, collId, freshId) == Reply(Success, st1);
    AccountIndexAfterReplace(st.profiles, accountId, k, p1);
    AcceptTwiceAddsCostTwice(st.profiles[k], msg, square, cost, date, collId, freshId);
  }

  lemma ManageOrderKeepsWellFormed(
    st: State, accountId: string, option: string, msg: string, square: real,
    cost: real, date: string, collId: string, freshId: string)
    requires WellFormed(st) && Store.Fresh(st, freshId)
    ensures WellFormed(ManageProfileOrder(st, accountId, option, msg, square, cost, date, collId, freshId).state)
  {
    if AccountIndex(st.profiles, accountId).Some? {
      var k := AccountIndex(st.profiles, accountId).value;
      OrderStepKeepsValid(st.profiles[k], option, msg, square, cost, date, collId, freshId);
      ReplaceProfile(st, k, OrderStep(st.profiles[k], option, msg, square, cost, date, collId, freshId));
    }
  }

  lemma ManageZoneKeepsWellFormed(
    st: State, accountId: string, option: string, title: string, category: string,
    cords: Cord, square: real, status: string, photoUrl: string, collId: string, freshId: string)
    requires WellFormed(st) && Store.Fresh(st, freshId)
    ensures WellFormed(ManageProfileZone(st, accountId, option, title, category, cords, square, status, photoUrl, collId, freshId).state)
  {
    if AccountIndex(st.profiles, accountId).Some? {
      var k := AccountIndex(st.profiles, accountId).value;
      var p := st.profiles[k];
      ZoneStepKeepsValid(p, option, title, category, cords, square, status, photoUrl, collId, freshId);
      ReplaceProfile(st, k, ZoneStep(p, option, title, category, cords, square, status, photoUrl, collId, freshId));
    }
  }
}
