/** The forum resolvers: createForum (with its linkage entry on the owner),
    manageForumImage, updateForumProgress and manageForumSource. The last
    three need a profile with the caller's username and the forum with id
    `id`. */
module ForumMutations {
  import opened Common
  import opened Store
  import opened Profiles
  import opened Forums

  /** The duplicate query of createForum: a forum with all these fields. */
  predicate SameForumExists(
    fs: seq<Forum>, username: string, title: string, category: string, format: string,
    country: string, description: string, status: string, region: string, cords: Cord)
  {
    exists i :: 0 <= i < |fs| && fs[i].username == username && fs[i].title == title
      && fs[i].category == category && fs[i].format == format && fs[i].country == country
      && fs[i].description == description && fs[i].status == status
      && fs[i].region == region && fs[i].cords == cords
  }

  /** The condition under which createForum (either version) writes. */
  predicate CanCreateForum(
    st: State, username: string, accountId: string, title: string, category: string,
    format: string, country: string, description: string, status: string, region: string, cords: Cord)
  {
    && OwnerIndex(st.profiles, username, accountId).Some?
    && !SameForumExists(st.forums, username, title, category, format, country, description, status, region, cords)
    && !Linked(st.profiles[OwnerIndex(st.profiles, username, accountId).value], title, "forum")
  }

  /** createForum as written: like createMower, but the new forum's
      account id field receives the owner's username. */
  function CreateForum(
    st: State, username: string, accountId: string, title: string, category: string,
    format: string, country: string, description: string, status: string, region: string,
    cords: Cord, freshId: string): (r: Reply)
    ensures r.status != Raised
    ensures r.status == Success <==>
      CanCreateForum(st, username, accountId, title, category, format, country, description, status, region, cords)
    ensures r.status == Error ==> r.state == st
    ensures r.status == Success ==>
      var k := OwnerIndex(st.profiles, username, accountId).value;
      && r.state.mowers == st.mowers && r.state.mowings == st.mowings
      && r.state.profiles == st.profiles[k := Link(st.profiles[k], freshId, title, "forum")]
      && r.state.forums
         == st.forums + [Forum(freshId, username, username, title, category, format, country, description,
                               status, region, cords, st.profiles[k].telegramTag, 0.0, [], [])]
  {
    if !CanCreateForum(st, username, accountId, title, category, format, country, description, status, region, cords)
    then Reply(Error, st)
    else
      var k := OwnerIndex(st.profiles, username, accountId).value;
      var p := st.profiles[k];
      var f := Forum(freshId, p.username, p.username, title, category, format, country, description,
                     status, region, cords, p.telegramTag, 0.0, [], []);
      Reply(Success, st.(profiles := st.profiles[k := Link(p, freshId, title, "forum")],
                         forums := st.forums + [f]))
  }

  /** createForum as evidently intended: the new forum records the owner's
      account id, as createMower and createMowing do. */
  function CreateForumIntended(
    st: State, username: string, accountId: string, title: string, category: string,
    format: string, country: string, description: string, status: string, region: string,
    cords: Cord, freshId: string): (r: Reply)
    ensures r.status != Raised
    ensures r.status == Success <==>
      CanCreateForum(st, username, accountId, title, category, format, country, description, status, region, cords)
    ensures r.status == Error ==> r.state == st
    ensures r.status == Success ==>
      var k := OwnerIndex(st.profiles, username, accountId).value;
      && r.state.mowers == st.mowers && r.state.mowings == st.mowings
      && r.state.profiles == st.profiles[k := Link(st.profiles[k], freshId, title, "forum")]
      && |r.state.forums| == |st.forums| + 1
      && r.state.forums[..|st.forums|] == st.forums
      && r.state.forums[|st.forums|].accountId == st.profiles[k].accountId
      && r.state.forums[|st.forums|]
         == Forum(freshId, accountId, username, title, category, format, country, description,
                  status, region, cords, st.profiles[k].telegramTag, 0.0, [], [])
  {
    if !CanCreateForum(st, username, accountId, title, category, format, country, description, status, region, cords)
    then Reply(Error, st)
    else
      var k := OwnerIndex(st.profiles, username, accountId).value;
      var p := st.profiles[k];
      var f := Forum(freshId, p.accountId, p.username, title, category, format, country, description,
                     status, region, cords, p.telegramTag, 0.0, [], []);
      Reply(Success, st.(profiles := st.profiles[k := Link(p, freshId, title, "forum")],
                         forums := st.forums + [f]))
  }

  /** The discrepancy: whenever an owner's username and account id differ,
      the forum createForum stores names an account id no profile lookup by
      the owner's id would match, while the intended version names the
      owner. */
  lemma ForumOwnerDiffers(
    st: State, username: string, accountId: string, title: string, category: string,
    format: string, country: string, description: string, status: string, region: string,
    cords: Cord, freshId: string)
    requires CanCreateForum(st, username, accountId, title, category, format, country, description, status, region, cords)
    requires username != accountId
    ensures var written := CreateForum(st, username, accountId, title, category, format, country,
                                       description, status, region, cords, freshId).state;
            var intended := CreateForumIntended(st, username, accountId, title, category, format, country,
                                                description, status, region, cords, freshId).state;
            && written.forums[|st.forums|].accountId != accountId
            && intended.forums[|st.forums|].accountId == accountId
  {
  }

  /** manageForumImage: the image transform on the forum. */
  function ManageForumImage(
    st: State, username: string, id: string, option: string, text: string, level: string,
    format: string, status: string, photoUrl: string, collId: string, freshId: string): (r: Reply)
    ensures r.status != Raised
    ensures r.status == Error <==>
      UsernameIndex(st.profiles, username).None? || ForumIndex(st.forums, id).None?
    ensures r.status == Error ==> r.state == st
    ensures r.status == Success ==>
      var k := ForumIndex(st.forums, id).value;
      && OnlyForumChanged(st, r.state, k)
      && r.state.forums[k] == ImageStep(st.forums[k], option, text, level, format, status, photoUrl, collId, freshId)
  {
    match (UsernameIndex(st.profiles, username), ForumIndex(st.forums, id))
    case (Some(_), Some(k)) =>
      var f := ImageStep(st.forums[k], option, text, level, format, status, photoUrl, collId, freshId);
      Reply(Success, st.(forums := st.forums[k := f]))
    case _ => Reply(Error, st)
  }

  /** updateForumProgress: set the progress of the forum. */
  function UpdateForumProgress(st: State, username: string, id: string, progress: real): (r: Reply)
    ensures r.status != Raised
    ensures r.status == Error <==>
      UsernameIndex(st.profiles, username).None? || ForumIndex(st.forums, id).None?
    ensures r.status == Error ==> r.state == st
    ensures r.status == Success ==>
      var k := ForumIndex(st.forums, id).value;
      && OnlyForumChanged(st, r.state, k)
      && r.state.forums[k] == st.forums[k].(progress := progress)
  {
    match (UsernameIndex(st.profiles, username), ForumIndex(st.forums, id))
    case (Some(_), Some(k)) =>
      Reply(Success, st.(forums := st.forums[k := st.forums[k].(progress := progress)]))
    case _ => Reply(Error, st)
  }

  /** manageForumSource: the source transform on the forum, with sources
      signed by the caller's username. */
  function ManageForumSource(
    st: State, username: string, id: string, option: string, title: string,
    category: string, url: string, collId: string, freshId: string): (r: Reply)
    ensures r.status != Raised
    ensures r.status == Error <==>
      UsernameIndex(st.profiles, username).None? || ForumIndex(st.forums, id).None?
    ensures r.status == Error ==> r.state == st
    ensures r.status == Success ==>
      var k := ForumIndex(st.forums, id).value;
      && OnlyForumChanged(st, r.state, k)
      && r.state.forums[k] == SourceStep(st.forums[k], option, username, title, category, url, collId, freshId)
  {
    match (UsernameIndex(st.profiles, username), ForumIndex(st.forums, id))
    case (Some(i), Some(k)) =>
      var f := SourceStep(st.forums[k], option, st.profiles[i].username, title, category, url, collId, freshId);
      Reply(Success, st.(forums := st.forums[k := f]))
    case _ => Reply(Error, st)
  }

  /** A second createForum with the same inputs fails and writes nothing. */
  lemma CreateForumTwice(
    st: State, username: string, accountId: string, title: string, category: string,
    format: string, country: string, description: string, status: string, region: string,
    cords: Cord, freshId: string, freshId2: string)
    requires CreateForum(st, username, accountId, title, category, format, country, description,
                         status, region, cords, freshId).status == Success
    ensures var st1 := CreateForum(st, username, accountId, title, category, format, country, description,
                                   status, region, cords, freshId).state;
            CreateForum(st1, username, accountId, title, category, format, country, description,
                        status, region, cords, freshId2)
            == Reply(Error, st1)
  {
    var st1 := CreateForum(st, username, accountId, title, category, format, country, description,
                           status, region, cords, freshId).state;
    assert st1.forums[|st.forums|].username == username;
  }

  lemma CreateForumKeepsWellFormed(
    st: State, username: string, accountId: string, title: string, category: string,
    format: string, country: string, description: string, status: string, region: string,
    cords: Cord, freshId: string)
    requires WellFormed(st)
    ensures WellFormed(CreateForum(st, username, accountId, title, category, format, country, description,
                                   status, region, cords, freshId).state)
  {
    var r := CreateForum(st, username, accountId, title, category, format, country, description,
                         status, region, cords, freshId);
    if r.status == Success {
      var k := OwnerIndex(st.profiles, username, accountId).value;
      LinkKeepsValid(st.profiles[k], freshId, title, "forum");
      ReplaceProfile(st, k, Link(st.profiles[k], freshId, title, "forum"));
      var st1 := st.(profiles := st.profiles[k := Link(st.profiles[k], freshId, title, "forum")]);
      assert r.state == st1.(forums := st1.forums + [r.state.forums[|st.forums|]]);
    }
  }

  lemma ManageForumImageKeepsWellFormed(
    st: State, username: string, id: string, option: string, text: string, level: string,
    format: string, status: string, photoUrl: string, collId: string, freshId: string)
    requires WellFormed(st) && Store.Fresh(st, freshId)
    ensures WellFormed(ManageForumImage(st, username, id, option, text, level, format, status, photoUrl, collId, freshId).state)
  {
    var r := ManageForumImage(st, username, id, option, text, level, format, status, photoUrl, collId, freshId);
    if r.status == Success {
      var k := ForumIndex(st.forums, id).value;
      ImageStepKeepsValid(st.forums[k], option, text, level, format, status, photoUrl, collId, freshId);
      ReplaceForum(st, k, r.state.forums[k]);
    }
  }

  lemma UpdateForumProgressKeepsWellFormed(st: State, username: string, id: string, progress: real)
    requires WellFormed(st)
    ensures WellFormed(UpdateForumProgress(st, username, id, progress).state)
  {
    var r := UpdateForumProgress(st, username, id, progress);
    if r.status == Success {
      var k := ForumIndex(st.forums, id).value;
      ReplaceForum(st, k, r.state.forums[k]);
    }
  }

  lemma ManageForumSourceKeepsWellFormed(
    st: State, username: string, id: string, option: string, title: string,
    category: string, url: string, collId: string, freshId: string)
    requires WellFormed(st) && Store.Fresh(st, freshId)
    ensures WellFormed(ManageForumSource(st, username, id, option, title, category, url, collId, freshId).state)
  {
    var r := ManageForumSource(st, username, id, option, title, category, url, collId, freshId);
    if r.status == Success {
      var k := ForumIndex(st.forums, id).value;
      SourceStepKeepsValid(st.forums[k], option, username, title, category, url, collId, freshId);
      ReplaceForum(st, k, r.state.forums[k]);
    }
  }
}
