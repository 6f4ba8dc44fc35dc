/** The per-event message parts both handlers build once and share across
    every batch: subject lines, header lists and plain-text bodies. The HTML
    bodies come from templates that this model treats as opaque. */
module Compose {
  import opened Base

  /** The fields both handlers hand to their templates (the reply handler's
      `reply_*` keys fill authorName, content and url). */
  datatype PostFields = PostFields(
    logoUrl: string,
    forumTitle: string,
    topicTitle: string,
    authorName: string,
    content: string,
    url: string)

  /** A `Name: value` header line. */
  function HeaderLine(name: string, value: string): string {
    name + ": " + value
  }

  const ContentTypeHeader := HeaderLine("Content-Type", "text/html; charset=UTF-8")

  const TopicFooter := "-----------\n\nYou are receiving this email because you subscribed to this forum.\nLogin and visit the forum to unsubscribe from these emails."

  const ReplyFooter := "-----------\n\nYou are receiving this email because you subscribed to this forum topic.\nLogin and visit the topic to unsubscribe from these emails."

  /** Subject of a new-topic notification; `decodedForumTitle` is the forum
      title after `wp_specialchars_decode`. */
  function TopicSubject(decodedForumTitle: string, topicTitle: string): string {
    "[" + decodedForumTitle + "] New Topic: " + topicTitle
  }

  /** Subject of a new-reply notification. */
  function ReplySubject(decodedForumTitle: string, topicTitle: string): string {
    "[" + decodedForumTitle + "] " + topicTitle
  }

  /** Headers of every new-topic job; `version` is `bbp_get_version()`. */
  function TopicHeaders(version: string): seq<string> {
    [ContentTypeHeader, HeaderLine("X-EmailIt-Source", "BBPress"), HeaderLine("X-bbPress", version)]
  }

  /** The `Name <noreply@host>` mailbox of a reply's From header. */
  function NoReplyMailbox(siteName: string, host: string): string {
    siteName + " <noreply@" + host + ">"
  }

  /** Headers of every new-reply job; `siteName` is `get_bloginfo('name')`
      and `host` the host part of `home_url()`. */
  function ReplyHeaders(version: string, siteName: string, host: string): seq<string> {
    [ContentTypeHeader, HeaderLine("X-bbPress", version), HeaderLine("From", NoReplyMailbox(siteName, host))]
  }

  /** `get_new_topic_text_email_content`; `stripTags` is `wp_strip_all_tags`. */
  function NewTopicText(f: PostFields, stripTags: string -> string): string {
    "New Topic in " + f.forumTitle + "\n\n"
    + f.authorName + " posted:\n\n"
    + "Topic: " + f.topicTitle + "\n\n"
    + stripTags(f.content) + "\n\n"
    + "Topic Link: " + f.url + "\n\n"
    + TopicFooter
  }

  /** `get_text_email_content`. */
  function ReplyText(f: PostFields, stripTags: string -> string): string {
    f.authorName + " wrote:\n\n"
    + stripTags(f.content) + "\n\n"
    + "Forum: " + f.forumTitle + "\n"
    + "Topic: " + f.topicTitle + "\n"
    + "Post Link: " + f.url + "\n\n"
    + ReplyFooter
  }

  predicate EndsWith(s: string, suffix: string) {
    |suffix| <= |s| && s[|s| - |suffix|..] == suffix
  }

  /** Reads a subject of the form `[tag] rest` back into its tag and rest,
      cutting at the first `]`. */
  function SplitForumTag(subject: string): (r: Option<(string, string)>)
    ensures r.Some? ==> subject == "[" + r.value.0 + "] " + r.value.1 && ']' !in r.value.0
  {
    if |subject| == 0 || subject[0] != '[' then None
    else match IndexOf(subject, ']', 1)
      case None => None
      case Some(k) =>
        if k + 1 < |subject| && subject[k + 1] == ' ' then
          assert subject == subject[..1] + subject[1..k] + subject[k..k + 2] + subject[k + 2..];
          Some((subject[1..k], subject[k + 2..]))
        else None
  }

  /** The name part of a `Name: value` header line. */
  function HeaderName(h: string): (r: Option<string>)
    ensures r.Some? ==> ':' !in r.value && r.value + [':'] <= h
  {
    match IndexOf(h, ':', 0)
    case None => None
    case Some(k) => Some(h[..k])
  }

  function HeaderNames(hs: seq<string>): seq<Option<string>> {
    seq(|hs|, i requires 0 <= i < |hs| => HeaderName(hs[i]))
  }

  /** `[tag] rest` is read back as (tag, rest) whenever the tag holds no `]`. */
  lemma TagRoundTrip(tag: string, rest: string)
    requires ']' !in tag
    ensures SplitForumTag("[" + tag + "] " + rest) == Some((tag, rest))
  {
    var s := "[" + tag + "] " + rest;
    var k := |tag| + 1;
    assert s[k] == ']' && s[k + 1] == ' ';
    forall j | 1 <= j < k ensures s[j] != ']' {
      assert s[j] == tag[j - 1];
    }
    IndexOfFinds(s, ']', 1, k);
    assert s[1..k] == tag;
    assert s[k + 2..] == rest;
  }

  /** A new-topic subject gives back the decoded forum title and
      "New Topic: " followed by the topic title. */
  lemma TopicSubjectRoundTrip(decodedForumTitle: string, topicTitle: string)
    requires ']' !in decodedForumTitle
    ensures SplitForumTag(TopicSubject(decodedForumTitle, topicTitle)) == Some((decodedForumTitle, "New Topic: " + topicTitle))
  {
    assert TopicSubject(decodedForumTitle, topicTitle) == "[" + decodedForumTitle + "] " + ("New Topic: " + topicTitle);
    TagRoundTrip(decodedForumTitle, "New Topic: " + topicTitle);
  }

  /** A forum title holding `]` makes a new-topic subject ambiguous: the
      subject of forum "a] b" reads back as forum "a". */
  lemma BracketTitleAmbiguous()
    ensures SplitForumTag(TopicSubject("a] b", "t")) == Some(("a", "b] New Topic: t"))
  {
    assert TopicSubject("a] b", "t") == "[" + "a" + "] " + "b] New Topic: t";
    TagRoundTrip("a", "b] New Topic: t");
  }

  /** A new-reply subject gives back the decoded forum title and the topic title. */
  lemma ReplySubjectRoundTrip(decodedForumTitle: string, topicTitle: string)
    requires ']' !in decodedForumTitle
    ensures SplitForumTag(ReplySubject(decodedForumTitle, topicTitle)) == Some((decodedForumTitle, topicTitle))
  {
    TagRoundTrip(decodedForumTitle, topicTitle);
  }

  /** A header line whose name has no colon is read back as that name. */
  lemma HeaderNameOf(name: string, value: string)
    requires ':' !in name
    ensures HeaderName(HeaderLine(name, value)) == Some(name)
  {
    var h := HeaderLine(name, value);
    forall j | 0 <= j < |name| ensures h[j] != ':' {
      assert h[j] == name[j];
    }
    IndexOfFinds(h, ':', 0, |name|);
    assert h[..|name|] == name;
  }

  /** Topic jobs carry three headers: Content-Type, X-EmailIt-Source, X-bbPress, in that order. */
  lemma TopicHeaderNames(version: string)
    ensures HeaderNames(TopicHeaders(version)) == [Some("Content-Type"), Some("X-EmailIt-Source"), Some("X-bbPress")]
  {
    HeaderNameOf("Content-Type", "text/html; charset=UTF-8");
    HeaderNameOf("X-EmailIt-Source", "BBPress");
    HeaderNameOf("X-bbPress", version);
  }

  /** Reply jobs carry Content-Type, X-bbPress and From headers, in that order. */
  lemma ReplyHeaderNames(version: string, siteName: string, host: string)
    ensures HeaderNames(ReplyHeaders(version, siteName, host)) == [Some("Content-Type"), Some("X-bbPress"), Some("From")]
  {
    HeaderNameOf("Content-Type", "text/html; charset=UTF-8");
    HeaderNameOf("X-bbPress", version);
    HeaderNameOf("From", NoReplyMailbox(siteName, host));
  }

  /** Header lines stay single lines as long as the values spliced into them do. */
  lemma HeadersSingleLine(version: string, siteName: string, host: string)
    requires '\n' !in version && '\n' !in siteName && '\n' !in host
    ensures forall h :: h in TopicHeaders(version) ==> '\n' !in h
    ensures forall h :: h in ReplyHeaders(version, siteName, host) ==> '\n' !in h
  {
  }

  /** A three-part concatenation starts with its first part and ends with its last. */
  lemma Framed(head: string, middle: string, tail: string)
    ensures head <= head + middle + tail
    ensures EndsWith(head + middle + tail, tail)
  {
    assert (head + middle + tail)[..|head|] == head;
    assert (head + middle + tail)[|head + middle|..] == tail;
  }

  /** Appending the same text to a string and to one of its suffixes keeps it a suffix. */
  lemma EndsWithExtend(x: string, t: string, y: string)
    requires EndsWith(x, t)
    ensures EndsWith(x + y, t + y)
  {
    assert (x + y)[|x + y| - |t + y|..] == x[|x| - |t|..] + y;
  }

  /** The new-topic text opens with the forum line and the author line and
      closes with the topic link followed by the unsubscribe footer. */
  lemma NewTopicTextShape(f: PostFields, stripTags: string -> string)
    ensures "New Topic in " + f.forumTitle + "\n\n" + f.authorName + " posted:\n\n" <= NewTopicText(f, stripTags)
    ensures EndsWith(NewTopicText(f, stripTags), "Topic Link: " + f.url + "\n\n" + TopicFooter)
  {
    var head := "New Topic in " + f.forumTitle + "\n\n" + f.authorName + " posted:\n\n";
    var middle := "Topic: " + f.topicTitle + "\n\n" + stripTags(f.content) + "\n\n";
    var tail := "Topic Link: " + f.url + "\n\n" + TopicFooter;
    assert NewTopicText(f, stripTags) == head + middle + tail;
    Framed(head, middle, tail);
  }

  /** The reply text opens with the author line and closes with the forum,
      topic and post-link lines followed by the unsubscribe footer. */
  lemma ReplyTextShape(f: PostFields, stripTags: string -> string)
    ensures f.authorName + " wrote:\n\n" <= ReplyText(f, stripTags)
    ensures EndsWith(ReplyText(f, stripTags),
      "Forum: " + f.forumTitle + "\n" + "Topic: " + f.topicTitle + "\n" + "Post Link: " + f.url + "\n\n" + ReplyFooter)
  {
    var head := f.authorName + " wrote:\n\n";
    var pre := head + stripTags(f.content) + "\n\n";
    assert ReplyText(f, stripTags)[..|head|] == head;
    var x, t := pre + "Forum: ", "Forum: ";
    assert x[|x| - |t|..] == t;
    EndsWithExtend(x, t, f.forumTitle);
    x, t := x + f.forumTitle, t + f.forumTitle;
    EndsWithExtend(x, t, "\n");
    x, t := x + "\n", t + "\n";
    EndsWithExtend(x, t, "Topic: ");
    x, t := x + "Topic: ", t + "Topic: ";
    EndsWithExtend(x, t, f.topicTitle);
    x, t := x + f.topicTitle, t + f.topicTitle;
    EndsWithExtend(x, t, "\n");
    x, t := x + "\n", t + "\n";
    EndsWithExtend(x, t, "Post Link: ");
    x, t := x + "Post Link: ", t + "Post Link: ";
    EndsWithExtend(x, t, f.url);
    x, t := x + f.url, t + f.url;
    EndsWithExtend(x, t, "\n\n");
    x, t := x + "\n\n", t + "\n\n";
    EndsWithExtend(x, t, ReplyFooter);
  }
}
