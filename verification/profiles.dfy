/** The Profile aggregate: an account with its orders, its capped list of
    lawn zones and its linkage entries, plus the transforms that
    manageProfileOrder and manageProfileZone apply to a profile once it has
    been found. */
module Profiles {
  import opened Common
  import opened SubLists

  datatype Order = Order(shortid: string, msg: string, square: real, cost: real, date: string, isAccepted: bool)

  datatype Zone = Zone(
    shortid: string, title: string, category: string, cords: Cord,
    square: real, status: string, photoUrl: string, likes: int)

  /** A linkage entry: a reference to a mower, mowing or forum this account
      created; `path` says which kind ("mower", "mowing" or "forum"). */
  datatype Component = Component(shortid: string, title: string, path: string)

  datatype Profile = Profile(
    accountId: string, username: string, securityCode: string, telegramTag: string,
    region: string, cords: Cord, activityDay: string,
    rate: real, budget: real, areaSize: real, mainPhoto: string,
    orders: seq<Order>, zones: seq<Zone>, components: seq<Component>)

  function OrderKey(o: Order): string { o.shortid }
  function ZoneKey(z: Zone): string { z.shortid }

  /** True when a linkage entry with this title already exists under `path`. */
  predicate Linked(p: Profile, title: string, path: string) {
    exists i :: 0 <= i < |p.components| && p.components[i].path == path && p.components[i].title == title
  }

  /** At most one linkage entry per (title, path) pair. */
  ghost predicate UniqueComponents(cs: seq<Component>) {
    forall i, j :: 0 <= i < j < |cs| ==> cs[i].title != cs[j].title || cs[i].path != cs[j].path
  }

  /** What every profile the resolvers produce satisfies. */
  ghost predicate Valid(p: Profile) {
    && |p.zones| <= Cap
    && UniqueKeys(p.orders, OrderKey)
    && UniqueKeys(p.zones, ZoneKey)
    && UniqueComponents(p.components)
  }

  /** `id` is not yet used by any order or zone of `p`. */
  ghost predicate Fresh(p: Profile, id: string) {
    KeyAbsent(p.orders, OrderKey, id) && KeyAbsent(p.zones, ZoneKey, id)
  }

  function Accept(o: Order): Order { o.(isAccepted := true) }

  function LikeZone(z: Zone): Zone { z.(likes := z.likes + 1) }

  /** Appends a linkage entry (the create resolvers' step on the owner). */
  function Link(p: Profile, shortid: string, title: string, path: string): (q: Profile)
    ensures |q.components| == |p.components| + 1
    ensures q.components[..|p.components|] == p.components
    ensures q.components[|p.components|] == Component(shortid, title, path)
    ensures Linked(q, title, path)
    ensures q.(components := p.components) == p
  {
    p.(components := p.components + [Component(shortid, title, path)])
  }

  /** manageProfileOrder on a found profile. "create" appends an unaccepted
      order (orders are not capped); "accept" marks every order with id
      `collId` accepted and adds `cost` to the budget whether or not one
      matched; any other option deletes the orders with id `collId`. */
  function OrderStep(
    p: Profile, option: string, msg: string, square: real, cost: real,
    date: string, collId: string, freshId: string): (q: Profile)
    ensures q.(orders := p.orders, budget := p.budget) == p
    ensures option == "create" ==>
      && q.budget == p.budget
      && |q.orders| == |p.orders| + 1
      && q.orders[..|p.orders|] == p.orders
      && q.orders[|p.orders|..] == [Order(freshId, msg, square, cost, date, false)]
    ensures option == "accept" ==>
      && q.budget == p.budget + cost
      && |q.orders| == |p.orders|
      && forall i :: 0 <= i < |p.orders| ==>
           q.orders[i] == (if p.orders[i].shortid == collId then p.orders[i].(isAccepted := true) else p.orders[i])
    ensures option != "create" && option != "accept" ==>
      && q.budget == p.budget
      && q.orders == RemoveKey(p.orders, OrderKey, collId)
  {
    if option == "create" then
      p.(orders := p.orders + [Order(freshId, msg, square, cost, date, false)])
    else if option == "accept" then
      p.(orders := MapWhere(p.orders, OrderKey, collId, Accept), budget := p.budget + cost)
    else
      p.(orders := RemoveKey(p.orders, OrderKey, collId))
  }

  /** manageProfileZone on a found profile. "create" appends a zone with no
      likes, caps the list and adds `square` to the area; "delete" removes
      the zones with id `collId` and subtracts the given `square` whether or
      not one matched; "update" rewrites status and photo, "like" adds one
      like, in place; any other option changes nothing. */
  function ZoneStep(
    p: Profile, option: string, title: string, category: string, cords: Cord,
    square: real, status: string, photoUrl: string, collId: string, freshId: string): (q: Profile)
    ensures q.(zones := p.zones, areaSize := p.areaSize) == p
    ensures option == "create" ==>
      && q.areaSize == p.areaSize + square
      && q.zones == CappedAppend(p.zones, Zone(freshId, title, category, cords, square, status, photoUrl, 0))
    ensures option == "delete" ==>
      && q.areaSize == p.areaSize - square
      && q.zones == RemoveKey(p.zones, ZoneKey, collId)
    ensures option == "update" ==>
      && q.areaSize == p.areaSize
      && |q.zones| == |p.zones|
      && forall i :: 0 <= i < |p.zones| ==>
           q.zones[i] == (if p.zones[i].shortid == collId then p.zones[i].(status := status, photoUrl := photoUrl) else p.zones[i])
    ensures option == "like" ==>
      && q.areaSize == p.areaSize
      && |q.zones| == |p.zones|
      && forall i :: 0 <= i < |p.zones| ==>
           q.zones[i] == (if p.zones[i].shortid == collId then p.zones[i].(likes := p.zones[i].likes + 1) else p.zones[i])
    ensures option !in {"create", "delete", "update", "like"} ==> q == p
  {
    if option == "create" then
      var z := Zone(freshId, title, category, cords, square, status, photoUrl, 0);
      p.(zones := CappedAppend(p.zones, z), areaSize := p.areaSize + square)
    else if option == "delete" then
      p.(zones := RemoveKey(p.zones, ZoneKey, collId), areaSize := p.areaSize - square)
    else if option == "update" then
      p.(zones := MapWhere(p.zones, ZoneKey, collId, (z: Zone) => z.(status := status, photoUrl := photoUrl)))
    else if option == "like" then
      p.(zones := MapWhere(p.zones, ZoneKey, collId, LikeZone))
    else
      p
  }

  /** Creating a zone and deleting it again with the same `square` restores
      the area, whatever `collId` the delete names. */
  lemma ZoneAreaRoundTrip(
    p: Profile, title: string, category: string, cords: Cord, square: real,
    status: string, photoUrl: string, collId: string, freshId: string,
    title2: string, category2: string, cords2: Cord, status2: string, photoUrl2: string, collId2: string, freshId2: string)
    ensures ZoneStep(ZoneStep(p, "create", title, category, cords, square, status, photoUrl, collId, freshId),
                     "delete", title2, category2, cords2, square, status2, photoUrl2, collId2, freshId2).areaSize
            == p.areaSize
  {
  }

  /** Creating a zone and then deleting it by its new id gives back the
      profile exactly, provided the list had room and the id was fresh. */
  lemma ZoneCreateDeleteRoundTrip(
    p: Profile, title: string, category: string, cords: Cord, square: real,
    status: string, photoUrl: string, collId: string, freshId: string)
    requires |p.zones| < Cap
    requires KeyAbsent(p.zones, ZoneKey, freshId)
    ensures ZoneStep(ZoneStep(p, "create", title, category, cords, square, status, photoUrl, collId, freshId),
                     "delete", title, category, cords, square, status, photoUrl, freshId, freshId)
            == p
  {
    var z := Zone(freshId, title, category, cords, square, status, photoUrl, 0);
    RemoveAppended(p.zones, ZoneKey, z);
  }

  /** Accepting the same order twice adds its cost twice: the orders settle
      after the first accept but the budget keeps growing. */
  lemma AcceptTwiceAddsCostTwice(
    p: Profile, msg: string, square: real, cost: real, date: string, collId: string, freshId: string)
    ensures var once := OrderStep(p, "accept", msg, square, cost, date, collId, freshId);
            var twice := OrderStep(once, "accept", msg, square, cost, date, collId, freshId);
            && twice.orders == once.orders
            && twice.budget == p.budget + 2.0 * cost
            && (cost != 0.0 ==> twice != once)
  {
    var once := OrderStep(p, "accept", msg, square, cost, date, collId, freshId);
    var twice := OrderStep(once, "accept", msg, square, cost, date, collId, freshId);
    assert forall i :: 0 <= i < |once.orders| ==> twice.orders[i] == once.orders[i];
  }

  /** Every order and zone transform keeps a valid profile valid, given a
      fresh id for what it creates. */
  lemma OrderStepKeepsValid(
    p: Profile, option: string, msg: string, square: real, cost: real,
    date: string, collId: string, freshId: string)
    requires Valid(p) && Fresh(p, freshId)
    ensures Valid(OrderStep(p, option, msg, square, cost, date, collId, freshId))
  {
    var q := OrderStep(p, option, msg, square, cost, date, collId, freshId);
    if option == "create" {
      var ys := p.orders + [Order(freshId, msg, square, cost, date, false)];
      assert q.orders == ys;
      forall i, j | 0 <= i < j < |ys|
        ensures OrderKey(ys[i]) != OrderKey(ys[j])
      {
        assert ys[i] == p.orders[i];
      }
    } else if option == "accept" {
      MapWhereKeepsUnique(p.orders, OrderKey, collId, Accept);
    } else {
      RemoveKeyKeepsUnique(p.orders, OrderKey, collId);
    }
  }

  lemma ZoneStepKeepsValid(
    p: Profile, option: string, title: string, category: string, cords: Cord,
    square: real, status: string, photoUrl: string, collId: string, freshId: string)
    requires Valid(p) && Fresh(p, freshId)
    ensures Valid(ZoneStep(p, option, title, category, cords, square, status, photoUrl, collId, freshId))
  {
    if option == "create" {
      CappedAppendKeepsUnique(p.zones, ZoneKey, Zone(freshId, title, category, cords, square, status, photoUrl, 0));
    } else if option == "delete" {
      RemoveKeyKeepsUnique(p.zones, ZoneKey, collId);
    } else if option == "update" {
      MapWhereKeepsUnique(p.zones, ZoneKey, collId, (z: Zone) => z.(status := status, photoUrl := photoUrl));
    } else if option == "like" {
      MapWhereKeepsUnique(p.zones, ZoneKey, collId, LikeZone);
    }
  }

  /** Adding a linkage entry that is not yet present keeps the entries unique. */
  lemma LinkKeepsValid(p: Profile, shortid: string, title: string, path: string)
    requires Valid(p) && !Linked(p, title, path)
    ensures Valid(Link(p, shortid, title, path))
  {
    var cs := Link(p, shortid, title, path).components;
    forall i, j | 0 <= i < j < |cs|
      ensures cs[i].title != cs[j].title || cs[i].path != cs[j].path
    {
      if j < |p.components| {
        assert cs[i] == p.components[i] && cs[j] == p.components[j];
      } else {
        assert cs[i] == p.components[i];
      }
    }
  }
}
