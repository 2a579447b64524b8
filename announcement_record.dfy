/**
 * The announcement record that `announcement create` of
 * `commands/announcement.py` builds from its options.
 */
module AnnouncementRecord {
  import opened Wrappers
  import opened Json
  import Strings

  /** Line 29: the URLs between single spaces, or none when the option is absent or empty. */
  function AttachmentUrls(attachmentUrls: Option<string>): (urls: seq<Json>)
    ensures attachmentUrls.None? || attachmentUrls.value == "" ==> urls == []
    ensures attachmentUrls.Some? && attachmentUrls.value != "" ==>
      var parts := Strings.Split(attachmentUrls.value, ' ');
      |urls| == |parts| && forall i :: 0 <= i < |parts| ==> urls[i] == Str(parts[i])
  {
    if attachmentUrls.Some? && attachmentUrls.value != "" then
      var parts := Strings.Split(attachmentUrls.value, ' ');
      seq(|parts|, i requires 0 <= i < |parts| => Str(parts[i]))
    else []
  }

  /** Lines 24-33: the announcement, with Python's falsy options replaced by their defaults. */
  function Announcement(author: Option<string>, title: string, message: Option<string>,
                        attachmentUrls: Option<string>, channel: string, level: Option<int>): Json
  {
    Obj(Fields(
      Str(if author.Some? && author.value != "" then author.value else "ReVanced"),
      Str(title),
      Obj([
        Field("message", if message.Some? then Str(message.value) else Null),
        Field("attachment_urls", Arr(AttachmentUrls(attachmentUrls)))]),
      Str(channel),
      Num(if level.Some? then level.value else 0)))
  }

  /** The five entries of an announcement, in the order lines 25-32 write them. */
  function Fields(author: Json, title: Json, content: Json, channel: Json, level: Json): seq<Field>
  {
    [Field("author", author), Field("title", title), Field("content", content),
     Field("channel", channel), Field("level", level)]
  }

  /** The announcement has exactly the five keys of lines 25-32, in that order. */
  lemma AnnouncementKeys(author: Option<string>, title: string, message: Option<string>,
                         attachmentUrls: Option<string>, channel: string, level: Option<int>)
    ensures var a := Announcement(author, title, message, attachmentUrls, channel, level);
      a.Obj? && Keys(a.fields) == ["author", "title", "content", "channel", "level"]
  {
  }

  /**
   * The author is `"ReVanced"` when absent or empty and the level 0 when
   * absent or zero; title and channel are stored verbatim.
   */
  lemma AnnouncementDefaults(author: Option<string>, title: string, message: Option<string>,
                             attachmentUrls: Option<string>, channel: string, level: Option<int>)
    ensures var a := Announcement(author, title, message, attachmentUrls, channel, level);
      && GetItem(a, "author") == Ok(Str(if author.Some? && author.value != "" then author.value else "ReVanced"))
      && GetItem(a, "title") == Ok(Str(title))
      && GetItem(a, "channel") == Ok(Str(channel))
      && GetItem(a, "level") == Ok(Num(if level.Some? then level.value else 0))
  {
    var au := Str(if author.Some? && author.value != "" then author.value else "ReVanced");
    var content := Obj([Field("message", if message.Some? then Str(message.value) else Null),
                        Field("attachment_urls", Arr(AttachmentUrls(attachmentUrls)))]);
    var lv := Num(if level.Some? then level.value else 0);
    AuthorItem(au, Str(title), content, Str(channel), lv);
    TitleItem(au, Str(title), content, Str(channel), lv);
    ChannelItem(au, Str(title), content, Str(channel), lv);
    LevelItem(au, Str(title), content, Str(channel), lv);
  }

  /** The message (`null` when absent) and the attachment URLs are stored under `content`. */
  lemma AnnouncementContent(author: Option<string>, title: string, message: Option<string>,
                            attachmentUrls: Option<string>, channel: string, level: Option<int>)
    ensures var a := Announcement(author, title, message, attachmentUrls, channel, level);
      && GetItem(a, "content").Ok?
      && GetItem(GetItem(a, "content").value, "message") == Ok(if message.Some? then Str(message.value) else Null)
      && GetItem(GetItem(a, "content").value, "attachment_urls") == Ok(Arr(AttachmentUrls(attachmentUrls)))
  {
    var m := if message.Some? then Str(message.value) else Null;
    var urls := Arr(AttachmentUrls(attachmentUrls));
    var content := Obj([Field("message", m), Field("attachment_urls", urls)]);
    ContentItem(Str(if author.Some? && author.value != "" then author.value else "ReVanced"), Str(title),
                content, Str(channel), Num(if level.Some? then level.value else 0));
    ContentItems(m, urls);
  }

  // Each key of the five looks up its own value.

  lemma AuthorItem(author: Json, title: Json, content: Json, channel: Json, level: Json)
    ensures GetItem(Obj(Fields(author, title, content, channel, level)), "author") == Ok(author)
  {
    LookupFirst(Fields(author, title, content, channel, level), 0);
  }

  lemma TitleItem(author: Json, title: Json, content: Json, channel: Json, level: Json)
    ensures GetItem(Obj(Fields(author, title, content, channel, level)), "title") == Ok(title)
  {
    LookupFirst(Fields(author, title, content, channel, level), 1);
  }

  lemma ContentItem(author: Json, title: Json, content: Json, channel: Json, level: Json)
    ensures GetItem(Obj(Fields(author, title, content, channel, level)), "content") == Ok(content)
  {
    LookupFirst(Fields(author, title, content, channel, level), 2);
  }

  lemma ChannelItem(author: Json, title: Json, content: Json, channel: Json, level: Json)
    ensures GetItem(Obj(Fields(author, title, content, channel, level)), "channel") == Ok(channel)
  {
    LookupFirst(Fields(author, title, content, channel, level), 3);
  }

  lemma LevelItem(author: Json, title: Json, content: Json, channel: Json, level: Json)
    ensures GetItem(Obj(Fields(author, title, content, channel, level)), "level") == Ok(level)
  {
    LookupFirst(Fields(author, title, content, channel, level), 4);
  }

  /** Each key of an announcement's content looks up its own value. */
  lemma ContentItems(message: Json, urls: Json)
    ensures var c := Obj([Field("message", message), Field("attachment_urls", urls)]);
      GetItem(c, "message") == Ok(message) && GetItem(c, "attachment_urls") == Ok(urls)
  {
    var fields := [Field("message", message), Field("attachment_urls", urls)];
    LookupFirst(fields, 0);
    LookupFirst(fields, 1);
  }
}
