/** domain/src/model/content.rs: the content entity, its status enum and its
    validating constructor. */
module ModelContent {
  import opened Wrappers
  import opened Utf8
  import opened Foreign

  const TitleTooShort := "Title must be at least 1 character long"
  const TitleTooLong := "Title exceeds maximum length(50 characters)"

  datatype ContentCategory = ContentCategory(id: string, name: string)
  datatype ContentTag = ContentTag(id: string, name: string)
  datatype CreatedBy = CreatedBy(id: string, name: string)
  datatype UpdatedBy = UpdatedBy(id: string, name: string)

  datatype ContentStatus = Draft | Published | Reserved | Unpublished

  /** The four statuses, each once. */
  const AllStatuses: seq<ContentStatus> := [Draft, Published, Reserved, Unpublished]

  datatype Content = Content(
    id: Uuid,
    title: string,
    category: ContentCategory,
    status: ContentStatus,
    fields: Json,
    tags: seq<ContentTag>,
    createdBy: CreatedBy,
    updatedBy: UpdatedBy,
    publishedAt: Option<Timestamp>,
    createdAt: Timestamp,
    updatedAt: Timestamp)

  /** A title of 1 to 50 bytes. */
  predicate ValidTitle(title: string)
  {
    1 <= ByteLen(title) <= 50
  }

  /** `Content::try_new`: only the title is checked (empty first, then too
      long); on success every argument is stored unchanged. */
  function TryNew(
    id: Uuid, title: string, category: ContentCategory, status: ContentStatus,
    fields: Json, tags: seq<ContentTag>, createdBy: CreatedBy, updatedBy: UpdatedBy,
    publishedAt: Option<Timestamp>, createdAt: Timestamp, updatedAt: Timestamp): (r: Result<Content>)
    ensures r.Ok? <==> ValidTitle(title)
    ensures ByteLen(title) < 1 ==> r == Err(TitleTooShort)
    ensures ByteLen(title) > 50 ==> r == Err(TitleTooLong)
    ensures r.Ok? ==> r.value == Content(id, title, category, status, fields, tags,
                                         createdBy, updatedBy, publishedAt, createdAt, updatedAt)
  {
    if ByteLen(title) < 1 then Err(TitleTooShort)
    else if ByteLen(title) > 50 then Err(TitleTooLong)
    else Ok(Content(id, title, category, status, fields, tags, createdBy, updatedBy,
                    publishedAt, createdAt, updatedAt))
  }

  /** `ContentStatus` has exactly the four variants of `AllStatuses`. */
  lemma StatusesEnumerated(s: ContentStatus)
    ensures s in AllStatuses
    ensures |AllStatuses| == 4
    ensures forall i, j :: 0 <= i < j < |AllStatuses| ==> AllStatuses[i] != AllStatuses[j]
  {
  }

  /** A 50-byte title is accepted and kept, a 51-byte one is rejected. */
  lemma TitleBoundary(
    id: Uuid, category: ContentCategory, status: ContentStatus, fields: Json,
    tags: seq<ContentTag>, createdBy: CreatedBy, updatedBy: UpdatedBy,
    publishedAt: Option<Timestamp>, createdAt: Timestamp, updatedAt: Timestamp, c: char)
    requires (c as int) < 0x80
    ensures var r := TryNew(id, Repeat(c, 50), category, status, fields, tags,
                            createdBy, updatedBy, publishedAt, createdAt, updatedAt);
            r.Ok? && r.value.title == Repeat(c, 50)
    ensures TryNew(id, Repeat(c, 51), category, status, fields, tags,
                   createdBy, updatedBy, publishedAt, createdAt, updatedAt) == Err(TitleTooLong)
  {
    RepeatByteLen(c, 50);
    RepeatByteLen(c, 51);
  }
}
