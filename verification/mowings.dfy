/** The Mowing aggregate: a collaborative mowing event with its members and
    a capped list of discussion topics, and the transform manageMowingTopic
    applies to a mowing once it has been found. */
module Mowings {
  import opened Common
  import opened SubLists

  datatype Member = Member(telegramTag: string, username: string, activity: string)

  datatype Topic = Topic(shortid: string, name: string, text: string, category: string, supports: int)

  datatype Mowing = Mowing(
    shortid: string, accountId: string, username: string, title: string,
    category: string, level: string, square: real, date: string, time: string,
    region: string, cords: Cord, borders: seq<Cord>, mainPhoto: string,
    members: seq<Member>, topics: seq<Topic>)

  function TopicKey(t: Topic): string { t.shortid }

  ghost predicate Valid(m: Mowing) {
    |m.topics| <= Cap && UniqueKeys(m.topics, TopicKey)
  }

  /** `id` is not yet used by any topic of `m`. */
  ghost predicate Fresh(m: Mowing, id: string) {
    KeyAbsent(m.topics, TopicKey, id)
  }

  function SupportTopic(t: Topic): Topic { t.(supports := t.supports + 1) }

  /** The topic transform of manageMowingTopic as its authors meant it:
      "create" appends a topic with no supports and caps the list;
      "support" adds one support to the topics with id `collId`; any other
      option deletes them. (The resolver as written never reaches the
      "create" branch: see MowingMutations.) */
  function TopicStep(
    m: Mowing, option: string, name: string, text: string, category: string,
    collId: string, freshId: string): (n: Mowing)
    ensures n.(topics := m.topics) == m
    ensures option == "create" ==>
      n.topics == CappedAppend(m.topics, Topic(freshId, name, text, category, 0))
    ensures option == "support" ==>
      && |n.topics| == |m.topics|
      && forall i :: 0 <= i < |m.topics| ==>
           n.topics[i] == (if m.topics[i].shortid == collId then m.topics[i].(supports := m.topics[i].supports + 1) else m.topics[i])
    ensures option != "create" && option != "support" ==>
      n.topics == RemoveKey(m.topics, TopicKey, collId)
  {
    if option == "create" then
      m.(topics := CappedAppend(m.topics, Topic(freshId, name, text, category, 0)))
    else if option == "support" then
      m.(topics := MapWhere(m.topics, TopicKey, collId, SupportTopic))
    else
      m.(topics := RemoveKey(m.topics, TopicKey, collId))
  }

  lemma TopicStepKeepsValid(
    m: Mowing, option: string, name: string, text: string, category: string,
    collId: string, freshId: string)
    requires Valid(m) && Fresh(m, freshId)
    ensures Valid(TopicStep(m, option, name, text, category, collId, freshId))
  {
    if option == "create" {
      CappedAppendKeepsUnique(m.topics, TopicKey, Topic(freshId, name, text, category, 0));
    } else if option == "support" {
      MapWhereKeepsUnique(m.topics, TopicKey, collId, SupportTopic);
    } else {
      RemoveKeyKeepsUnique(m.topics, TopicKey, collId);
    }
  }
}
