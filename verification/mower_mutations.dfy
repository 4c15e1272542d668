/** The mower resolvers: createMower (with its linkage entry on the owner),
    makeMowerReview, updateMowerInfo and manageMowerOffer. The last three
    need a profile with the caller's username and the mower with id `id`. */
module MowerMutations {
  import opened Common
  import opened Store
  import opened Profiles
  import opened Mowers

  /** The duplicate query of createMower: a mower with all these fields. */
  predicate SameMowerExists(
    ms: seq<Mower>, username: string, title: string, category: string,
    format: string, country: string, cutSize: real, isStripe: bool)
  {
    exists i :: 0 <= i < |ms| && ms[i].username == username && ms[i].title == title
      && ms[i].category == category && ms[i].format == format && ms[i].country == country
      && ms[i].cutSize == cutSize && ms[i].isStripe == isStripe
  }

  /** createMower: the owner is found by (username, account id); an
      identical mower or a "mower" linkage entry with the same title makes
      it fail; otherwise one linkage entry and one new mower sharing the
      fresh id are written. */
  function CreateMower(
    st: State, username: string, accountId: string, title: string, category: string,
    format: string, country: string, cutSize: real, isStripe: bool, freshId: string): (r: Reply)
    ensures r.status != Raised
    ensures r.status == Success <==>
      && OwnerIndex(st.profiles, username, accountId).Some?
      && !SameMowerExists(st.mowers, username, title, category, format, country, cutSize, isStripe)
      && !Linked(st.profiles[OwnerIndex(st.profiles, username, accountId).value], title, "mower")
    ensures r.status == Error ==> r.state == st
    ensures r.status == Success ==>
      var k := OwnerIndex(st.profiles, username, accountId).value;
      && r.state.mowings == st.mowings && r.state.forums == st.forums
      && r.state.profiles == st.profiles[k := Link(st.profiles[k], freshId, title, "mower")]
      && r.state.mowers
         == st.mowers + [Mower(freshId, accountId, username, title, category, format, country,
                               cutSize, isStripe, "", "", [], [])]
  {
    match OwnerIndex(st.profiles, username, accountId)
    case None => Reply(Error, st)
    case Some(k) =>
      var p := st.profiles[k];
      if SameMowerExists(st.mowers, username, title, category, format, country, cutSize, isStripe)
         || Linked(p, title, "mower")
      then Reply(Error, st)
      else
        var m := Mower(freshId, p.accountId, p.username, title, category, format, country,
                       cutSize, isStripe, "", "", [], []);
        Reply(Success, st.(profiles := st.profiles[k := Link(p, freshId, title, "mower")],
                           mowers := st.mowers + [m]))
  }

  /** makeMowerReview: append a review signed with the caller's username. */
  function MakeMowerReview(
    st: State, username: string, id: string, content: string, test: string,
    rate: real, freshId: string): (r: Reply)
    ensures r.status != Raised
    ensures r.status == Error <==>
      UsernameIndex(st.profiles, username).None? || MowerIndex(st.mowers, id).None?
    ensures r.status == Error ==> r.state == st
    ensures r.status == Success ==>
      var k := MowerIndex(st.mowers, id).value;
      && OnlyMowerChanged(st, r.state, k)
      && r.state.mowers[k] == AddReview(st.mowers[k], username, content, test, rate, freshId)
  {
    match (UsernameIndex(st.profiles, username), MowerIndex(st.mowers, id))
    case (Some(i), Some(k)) =>
      var m := AddReview(st.mowers[k], st.profiles[i].username, content, test, rate, freshId);
      Reply(Success, st.(mowers := st.mowers[k := m]))
    case _ => Reply(Error, st)
  }

  /** updateMowerInfo: set the link and the photo of the mower. */
  function UpdateMowerInfo(st: State, username: string, id: string, link: string, mainPhoto: string): (r: Reply)
    ensures r.status != Raised
    ensures r.status == Error <==>
      UsernameIndex(st.profiles, username).None? || MowerIndex(st.mowers, id).None?
    ensures r.status == Error ==> r.state == st
    ensures r.status == Success ==>
      var k := MowerIndex(st.mowers, id).value;
      && OnlyMowerChanged(st, r.state, k)
      && r.state.mowers[k] == st.mowers[k].(link := link, mainPhoto := mainPhoto)
  {
    match (UsernameIndex(st.profiles, username), MowerIndex(st.mowers, id))
    case (Some(_), Some(k)) =>
      Reply(Success, st.(mowers := st.mowers[k := st.mowers[k].(link := link, mainPhoto := mainPhoto)]))
    case _ => Reply(Error, st)
  }

  /** manageMowerOffer: the offer transform on the mower, with offers signed
      by the caller's username. */
  function ManageMowerOffer(
    st: State, username: string, id: string, option: string, marketplace: string,
    format: string, cost: real, cords: Cord, collId: string, freshId: string): (r: Reply)
    ensures r.status != Raised
    ensures r.status == Error <==>
      UsernameIndex(st.profiles, username).None? || MowerIndex(st.mowers, id).None?
    ensures r.status == Error ==> r.state == st
    ensures r.status == Success ==>
      var k := MowerIndex(st.mowers, id).value;
      && OnlyMowerChanged(st, r.state, k)
      && r.state.mowers[k] == OfferStep(st.mowers[k], option, username, marketplace, format, cost, cords, collId, freshId)
  {
    match (UsernameIndex(st.profiles, username), MowerIndex(st.mowers, id))
    case (Some(i), Some(k)) =>
      var m := OfferStep(st.mowers[k], option, st.profiles[i].username, marketplace, format, cost, cords, collId, freshId);
      Reply(Success, st.(mowers := st.mowers[k := m]))
    case _ => Reply(Error, st)
  }

  /** A second createMower with the same inputs fails and writes nothing:
      exactly one mower and one linkage entry come out of the pair. */
  lemma CreateMowerTwice(
    st: State, username: string, accountId: string, title: string, category: string,
    format: string, country: string, cutSize: real, isStripe: bool, freshId: string, freshId2: string)
    requires CreateMower(st, username, accountId, title, category, format, country, cutSize, isStripe, freshId).status == Success
    ensures var st1 := CreateMower(st, username, accountId, title, category, format, country, cutSize, isStripe, freshId).state;
            CreateMower(st1, username, accountId, title, category, format, country, cutSize, isStripe, freshId2)
            == Reply(Error, st1)
  {
    var st1 := CreateMower(st, username, accountId, title, category, format, country, cutSize, isStripe, freshId).state;
    assert st1.mowers[|st.mowers|].username == username;
  }

  lemma CreateMowerKeepsWellFormed(
    st: State, username: string, accountId: string, title: string, category: string,
    format: string, country: string, cutSize: real, isStripe: bool, freshId: string)
    requires WellFormed(st)
    ensures WellFormed(CreateMower(st, username, accountId, title, category, format, country, cutSize, isStripe, freshId).state)
  {
    var r := CreateMower(st, username, accountId, title, category, format, country, cutSize, isStripe, freshId);
    if r.status == Success {
      var k := OwnerIndex(st.profiles, username, accountId).value;
      LinkKeepsValid(st.profiles[k], freshId, title, "mower");
      ReplaceProfile(st, k, Link(st.profiles[k], freshId, title, "mower"));
      var st1 := st.(profiles := st.profiles[k := Link(st.profiles[k], freshId, title, "mower")]);
      assert r.state == st1.(mowers := st1.mowers + [r.state.mowers[|st.mowers|]]);
    }
  }

  lemma MakeMowerReviewKeepsWellFormed(
    st: State, username: string, id: string, content: string, test: string, rate: real, freshId: string)
    requires WellFormed(st) && Store.Fresh(st, freshId)
    ensures WellFormed(MakeMowerReview(st, username, id, content, test, rate, freshId).state)
  {
    var r := MakeMowerReview(st, username, id, content, test, rate, freshId);
    if r.status == Success {
      var k := MowerIndex(st.mowers, id).value;
      AddReviewKeepsValid(st.mowers[k], username, content, test, rate, freshId);
      ReplaceMower(st, k, r.state.mowers[k]);
    }
  }

  lemma UpdateMowerInfoKeepsWellFormed(st: State, username: string, id: string, link: string, mainPhoto: string)
    requires WellFormed(st)
    ensures WellFormed(UpdateMowerInfo(st, username, id, link, mainPhoto).state)
  {
    var r := UpdateMowerInfo(st, username, id, link, mainPhoto);
    if r.status == Success {
      var k := MowerIndex(st.mowers, id).value;
      ReplaceMower(st, k, r.state.mowers[k]);
    }
  }

  lemma ManageMowerOfferKeepsWellFormed(
    st: State, username: string, id: string, option: string, marketplace: string,
    format: string, cost: real, cords: Cord, collId: string, freshId: string)
    requires WellFormed(st) && Store.Fresh(st, freshId)
    ensures WellFormed(ManageMowerOffer(st, username, id, option, marketplace, format, cost, cords, collId, freshId).state)
  {
    var r := ManageMowerOffer(st, username, id, option, marketplace, format, cost, cords, collId, freshId);
    if r.status == Success {
      var k := MowerIndex(st.mowers, id).value;
      OfferStepKeepsValid(st.mowers[k], option, username, marketplace, format, cost, cords, collId, freshId);
      ReplaceMower(st, k, r.state.mowers[k]);
    }
  }
}
