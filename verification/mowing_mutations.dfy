/** The mowing resolvers: createMowing (with its linkage entry on the
    owner), updateMowingPhoto and manageMowingTopic. The last two need a
    profile with the caller's username and the mowing with id `id`. */
module MowingMutations {
  import opened Common
  import opened Store
  import opened Profiles
  import opened Mowings

  /** The duplicate query of createMowing: a mowing with all these fields. */
  predicate SameMowingExists(
    ms: seq<Mowing>, username: string, title: string, category: string, level: string,
    square: real, date: string, time: string, region: string, cords: Cord, borders: seq<Cord>)
  {
    exists i :: 0 <= i < |ms| && ms[i].username == username && ms[i].title == title
      && ms[i].category == category && ms[i].level == level && ms[i].square == square
      && ms[i].date == date && ms[i].time == time && ms[i].region == region
      && ms[i].cords == cords && ms[i].borders == borders
  }

  /** createMowing: like createMower, and the new mowing's members are
      exactly the creator, with the given activity. */
  function CreateMowing(
    st: State, username: string, accountId: string, title: string, category: string,
    level: string, square: real, date: string, time: string, region: string,
    cords: Cord, borders: seq<Cord>, activity: string, freshId: string): (r: Reply)
    ensures r.status != Raised
    ensures r.status == Success <==>
      && OwnerIndex(st.profiles, username, accountId).Some?
      && !SameMowingExists(st.mowings, username, title, category, level, square, date, time, region, cords, borders)
      && !Linked(st.profiles[OwnerIndex(st.profiles, username, accountId).value], title, "mowing")
    ensures r.status == Error ==> r.state == st
    ensures r.status == Success ==>
      var k := OwnerIndex(st.profiles, username, accountId).value;
      && r.state.mowers == st.mowers && r.state.forums == st.forums
      && r.state.profiles == st.profiles[k := Link(st.profiles[k], freshId, title, "mowing")]
      && r.state.mowings
         == st.mowings + [Mowing(freshId, accountId, username, title, category, level, square, date, time,
                                 region, cords, borders, "",
                                 [Member(st.profiles[k].telegramTag, username, activity)], [])]
  {
    match OwnerIndex(st.profiles, username, accountId)
    case None => Reply(Error, st)
    case Some(k) =>
      var p := st.profiles[k];
      if SameMowingExists(st.mowings, username, title, category, level, square, date, time, region, cords, borders)
         || Linked(p, title, "mowing")
      then Reply(Error, st)
      else
        var m := Mowing(freshId, p.accountId, p.username, title, category, level, square, date, time,
                        region, cords, borders, "", [Member(p.telegramTag, p.username, activity)], []);
        Reply(Success, st.(profiles := st.profiles[k := Link(p, freshId, title, "mowing")],
                           mowings := st.mowings + [m]))
  }

  /** updateMowingPhoto: set the photo of the mowing. */
  function UpdateMowingPhoto(st: State, username: string, id: string, mainPhoto: string): (r: Reply)
    ensures r.status != Raised
    ensures r.status == Error <==>
      UsernameIndex(st.profiles, username).None? || MowingIndex(st.mowings, id).None?
    ensures r.status == Error ==> r.state == st
    ensures r.status == Success ==>
      var k := MowingIndex(st.mowings, id).value;
      && OnlyMowingChanged(st, r.state, k)
      && r.state.mowings[k] == st.mowings[k].(mainPhoto := mainPhoto)
  {
    match (UsernameIndex(st.profiles, username), MowingIndex(st.mowings, id))
    case (Some(_), Some(k)) =>
      Reply(Success, st.(mowings := st.mowings[k := st.mowings[k].(mainPhoto := mainPhoto)]))
    case _ => Reply(Error, st)
  }

  /** manageMowingTopic as written: its "create" branch builds the new list
      from a `sources` field that a mowing does not have, so spreading it
      throws before anything is written; "support" and the fall-through
      delete behave as TopicStep. */
  function ManageMowingTopic(
    st: State, username: string, id: string, option: string, text: string,
    category: string, collId: string, freshId: string): (r: Reply)
    ensures r.status == Error <==>
      UsernameIndex(st.profiles, username).None? || MowingIndex(st.mowings, id).None?
    ensures r.status == Raised <==> r.status != Error && option == "create"
    ensures r.status != Success ==> r.state == st
    ensures r.status == Success ==>
      var k := MowingIndex(st.mowings, id).value;
      && OnlyMowingChanged(st, r.state, k)
      && r.state.mowings[k] == TopicStep(st.mowings[k], option, username, text, category, collId, freshId)
  {
    match (UsernameIndex(st.profiles, username), MowingIndex(st.mowings, id))
    case (Some(i), Some(k)) =>
      if option == "create" then Reply(Raised, st)
      else
        var m := TopicStep(st.mowings[k], option, st.profiles[i].username, text, category, collId, freshId);
        Reply(Success, st.(mowings := st.mowings[k := m]))
    case _ => Reply(Error, st)
  }

  /** manageMowingTopic as evidently intended: "create" appends to the
      mowing's own topics, so every option succeeds once both lookups do. */
  function ManageMowingTopicIntended(
    st: State, username: string, id: string, option: string, text: string,
    category: string, collId: string, freshId: string): (r: Reply)
    ensures r.status != Raised
    ensures r.status == Error <==>
      UsernameIndex(st.profiles, username).None? || MowingIndex(st.mowings, id).None?
    ensures r.status == Error ==> r.state == st
    ensures r.status == Success ==>
      var k := MowingIndex(st.mowings, id).value;
      && OnlyMowingChanged(st, r.state, k)
      && r.state.mowings[k] == TopicStep(st.mowings[k], option, username, text, category, collId, freshId)
  {
    match (UsernameIndex(st.profiles, username), MowingIndex(st.mowings, id))
    case (Some(i), Some(k)) =>
      var m := TopicStep(st.mowings[k], option, st.profiles[i].username, text, category, collId, freshId);
      Reply(Success, st.(mowings := st.mowings[k := m]))
    case _ => Reply(Error, st)
  }

  /** The discrepancy: with the caller and the mowing present, creating a
      topic throws and stores nothing as written, while the intended
      resolver stores the new topic last with no supports. */
  lemma TopicCreateDiffers(
    st: State, username: string, id: string, text: string, category: string,
    collId: string, freshId: string)
    requires UsernameIndex(st.profiles, username).Some? && MowingIndex(st.mowings, id).Some?
    ensures ManageMowingTopic(st, username, id, "create", text, category, collId, freshId) == Reply(Raised, st)
    ensures var r := ManageMowingTopicIntended(st, username, id, "create", text, category, collId, freshId);
            var k := MowingIndex(st.mowings, id).value;
            && r.status == Success
            && var topics := r.state.mowings[k].topics;
               |topics| > 0 && topics[|topics| - 1] == Topic(freshId, username, text, category, 0)
  {
  }

  /** A second createMowing with the same inputs fails and writes nothing. */
  lemma CreateMowingTwice(
    st: State, username: string, accountId: string, title: string, category: string,
    level: string, square: real, date: string, time: string, region: string,
    cords: Cord, borders: seq<Cord>, activity: string, freshId: string, activity2: string, freshId2: string)
    requires CreateMowing(st, username, accountId, title, category, level, square, date, time,
                          region, cords, borders, activity, freshId).status == Success
    ensures var st1 := CreateMowing(st, username, accountId, title, category, level, square, date, time,
                                    region, cords, borders, activity, freshId).state;
            CreateMowing(st1, username, accountId, title, category, level, square, date, time,
                         region, cords, borders, activity2, freshId2)
            == Reply(Error, st1)
  {
    var st1 := CreateMowing(st, username, accountId, title, category, level, square, date, time,
                            region, cords, borders, activity, freshId).state;
    assert st1.mowings[|st.mowings|].username == username;
  }

  lemma CreateMowingKeepsWellFormed(
    st: State, username: string, accountId: string, title: string, category: string,
    level: string, square: real, date: string, time: string, region: string,
    cords: Cord, borders: seq<Cord>, activity: string, freshId: string)
    requires WellFormed(st)
    ensures WellFormed(CreateMowing(st, username, accountId, title, category, level, square, date, time,
                                    region, cords, borders, activity, freshId).state)
  {
    var r := CreateMowing(st, username, accountId, title, category, level, square, date, time,
                          region, cords, borders, activity, freshId);
    if r.status == Success {
      var k := OwnerIndex(st.profiles, username, accountId).value;
      LinkKeepsValid(st.profiles[k], freshId, title, "mowing");
      ReplaceProfile(st, k, Link(st.profiles[k], freshId, title, "mowing"));
      var st1 := st.(profiles := st.profiles[k := Link(st.profiles[k], freshId, title, "mowing")]);
      assert r.state == st1.(mowings := st1.mowings + [r.state.mowings[|st.mowings|]]);
    }
  }

  lemma UpdateMowingPhotoKeepsWellFormed(st: State, username: string, id: string, mainPhoto: string)
    requires WellFormed(st)
    ensures WellFormed(UpdateMowingPhoto(st, username, id, mainPhoto).state)
  {
    var r := UpdateMowingPhoto(st, username, id, mainPhoto);
    if r.status == Success {
      var k := MowingIndex(st.mowings, id).value;
      ReplaceMowing(st, k, r.state.mowings[k]);
    }
  }

  lemma ManageMowingTopicKeepsWellFormed(
    st: State, username: string, id: string, option: string, text: string,
    category: string, collId: string, freshId: string)
    requires WellFormed(st) && Store.Fresh(st, freshId)
    ensures WellFormed(ManageMowingTopic(st, username, id, option, text, category, collId, freshId).state)
    ensures WellFormed(ManageMowingTopicIntended(st, username, id, option, text, category, collId, freshId).state)
  {
    var r := ManageMowingTopicIntended(st, username, id, option, text, category, collId, freshId);
    if r.status == Success {
      var k := MowingIndex(st.mowings, id).value;
      TopicStepKeepsValid(st.mowings[k], option, username, text, category, collId, freshId);
      ReplaceMowing(st, k, r.state.mowings[k]);
    }
  }
}
