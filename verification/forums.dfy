/** The Forum aggregate: a community forum with capped lists of images and
    sources, and the transforms manageForumImage and manageForumSource apply
    to a forum once it has been found. */
module Forums {
  import opened Common
  import opened SubLists

  datatype Image = Image(shortid: string, text: string, level: string, format: string, status: string, photoUrl: string)

  datatype Source = Source(shortid: string, name: string, title: string, category: string, url: string, likes: int)

  datatype Forum = Forum(
    shortid: string, accountId: string, username: string, title: string,
    category: string, format: string, country: string, description: string,
    status: string, region: string, cords: Cord, telegramTag: string,
    progress: real, images: seq<Image>, sources: seq<Source>)

  function ImageKey(i: Image): string { i.shortid }
  function SourceKey(s: Source): string { s.shortid }

  ghost predicate Valid(f: Forum) {
    && |f.images| <= Cap && |f.sources| <= Cap
    && UniqueKeys(f.images, ImageKey) && UniqueKeys(f.sources, SourceKey)
  }

  /** `id` is not yet used by any image or source of `f`. */
  ghost predicate Fresh(f: Forum, id: string) {
    KeyAbsent(f.images, ImageKey, id) && KeyAbsent(f.sources, SourceKey, id)
  }

  function LikeSource(s: Source): Source { s.(likes := s.likes + 1) }

  /** manageForumImage on a found forum. "create" appends an image and caps
      the list; "update" rewrites the status of the images with id `collId`
      in place; any other option deletes them. */
  function ImageStep(
    f: Forum, option: string, text: string, level: string, format: string,
    status: string, photoUrl: string, collId: string, freshId: string): (g: Forum)
    ensures g.(images := f.images) == f
    ensures option == "create" ==>
      g.images == CappedAppend(f.images, Image(freshId, text, level, format, status, photoUrl))
    ensures option == "update" ==>
      && |g.images| == |f.images|
      && forall i :: 0 <= i < |f.images| ==>
           g.images[i] == (if f.images[i].shortid == collId then f.images[i].(status := status) else f.images[i])
    ensures option != "create" && option != "update" ==>
      g.images == RemoveKey(f.images, ImageKey, collId)
  {
    if option == "create" then
      f.(images := CappedAppend(f.images, Image(freshId, text, level, format, status, photoUrl)))
    else if option == "update" then
      f.(images := MapWhere(f.images, ImageKey, collId, (im: Image) => im.(status := status)))
    else
      f.(images := RemoveKey(f.images, ImageKey, collId))
  }

  /** manageForumSource on a found forum. "create" appends a source with no
      likes and caps the list; "like" adds one like to the sources with id
      `collId`; any other option deletes them. */
  function SourceStep(
    f: Forum, option: string, name: string, title: string, category: string,
    url: string, collId: string, freshId: string): (g: Forum)
    ensures g.(sources := f.sources) == f
    ensures option == "create" ==>
      g.sources == CappedAppend(f.sources, Source(freshId, name, title, category, url, 0))
    ensures option == "like" ==>
      && |g.sources| == |f.sources|
      && forall i :: 0 <= i < |f.sources| ==>
           g.sources[i] == (if f.sources[i].shortid == collId then f.sources[i].(likes := f.sources[i].likes + 1) else f.sources[i])
    ensures option != "create" && option != "like" ==>
      g.sources == RemoveKey(f.sources, SourceKey, collId)
  {
    if option == "create" then
      f.(sources := CappedAppend(f.sources, Source(freshId, name, title, category, url, 0)))
    else if option == "like" then
      f.(sources := MapWhere(f.sources, SourceKey, collId, LikeSource))
    else
      f.(sources := RemoveKey(f.sources, SourceKey, collId))
  }

  lemma ImageStepKeepsValid(
    f: Forum, option: string, text: string, level: string, format: string,
    status: string, photoUrl: string, collId: string, freshId: string)
    requires Valid(f) && Fresh(f, freshId)
    ensures Valid(ImageStep(f, option, text, level, format, status, photoUrl, collId, freshId))
  {
    if option == "create" {
      CappedAppendKeepsUnique(f.images, ImageKey, Image(freshId, text, level, format, status, photoUrl));
    } else if option == "update" {
      MapWhereKeepsUnique(f.images, ImageKey, collId, (im: Image) => im.(status := status));
    } else {
      RemoveKeyKeepsUnique(f.images, ImageKey, collId);
    }
  }

  lemma SourceStepKeepsValid(
    f: Forum, option: string, name: string, title: string, category: string,
    url: string, collId: string, freshId: string)
    requires Valid(f) && Fresh(f, freshId)
    ensures Valid(SourceStep(f, option, name, title, category, url, collId, freshId))
  {
    if option == "create" {
      CappedAppendKeepsUnique(f.sources, SourceKey, Source(freshId, name, title, category, url, 0));
    } else if option == "like" {
      MapWhereKeepsUnique(f.sources, SourceKey, collId, LikeSource);
    } else {
      RemoveKeyKeepsUnique(f.sources, SourceKey, collId);
    }
  }
}
