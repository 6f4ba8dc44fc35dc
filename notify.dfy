/** The two bbPress notification handlers: select the recipients, stop early
    when there are none, otherwise split them into batches of ten and schedule
    one cron event per batch, a minute apart. */
module Notify {
  import opened Base
  import opened ArrayChunk
  import opened Recipients
  import opened Compose
  import opened Cron

  const BatchSize: nat := 10
  const BatchInterval: int := 60
  const Recurrence := "emailit_every_minute"
  const BatchHook := "emailit_process_email_batch"

  /** The parts of a notification that every batch shares. */
  datatype Message = Message(subject: string, html: string, headers: seq<string>, text: string)

  /** The WordPress and bbPress lookups the handlers call, as values: each
      accessor is a function of the id it is called with. */
  datatype Platform = Platform(
    forumSubscribers: int -> seq<UserId>,  // bbp_get_forum_subscribers($forum_id, true)
    topicSubscribers: int -> seq<UserId>,  // bbp_get_topic_subscribers($topic_id, true)
    topicAuthorId: int -> UserId,          // bbp_get_topic_author_id
    replyAuthorId: int -> UserId,          // bbp_get_reply_author_id
    emailOf: UserId -> Option<string>,     // get_userdata($id)->user_email; None: no such user
    topicAuthorName: int -> string,
    topicTitle: int -> string,
    topicPermalink: int -> string,
    topicContent: int -> string,
    replyAuthorName: int -> string,
    replyUrl: int -> string,
    replyContent: int -> string,
    topicForumId: int -> int,
    forumTitle: int -> string,
    customLogoId: int,                     // get_theme_mod('custom_logo'), 0 when unset
    attachmentImageUrl: int -> string,     // wp_get_attachment_image_url($id, 'full')
    bbpVersion: string,
    siteName: string,                      // get_bloginfo('name')
    homeHost: string,                      // parse_url(home_url(), PHP_URL_HOST)
    specialcharsDecode: string -> string,  // wp_specialchars_decode($s, ENT_QUOTES)
    stripAllTags: string -> string,        // wp_strip_all_tags
    renderTopicHtml: PostFields -> string, // get_new_topic_email_template
    renderReplyHtml: PostFields -> string) // get_email_template

  function LogoUrl(p: Platform): string {
    if p.customLogoId != 0 then p.attachmentImageUrl(p.customLogoId) else ""
  }

  function TopicFields(p: Platform, topicId: int, forumId: int): PostFields {
    PostFields(LogoUrl(p), p.forumTitle(forumId), p.topicTitle(topicId),
      p.topicAuthorName(topicId), p.topicContent(topicId), p.topicPermalink(topicId))
  }

  /** The new-topic message: the subject uses the decoded forum title, the
      bodies the raw one. */
  function TopicMessage(p: Platform, topicId: int, forumId: int): Message {
    var f := TopicFields(p, topicId, forumId);
    Message(
      TopicSubject(p.specialcharsDecode(f.forumTitle), f.topicTitle),
      p.renderTopicHtml(f),
      TopicHeaders(p.bbpVersion),
      NewTopicText(f, p.stripAllTags))
  }

  /** Reply fields; the forum is the topic's own, whatever forum id the hook passed. */
  function ReplyFields(p: Platform, replyId: int, topicId: int): PostFields {
    PostFields(LogoUrl(p), p.forumTitle(p.topicForumId(topicId)), p.topicTitle(topicId),
      p.replyAuthorName(replyId), p.replyContent(replyId), p.replyUrl(replyId))
  }

  function ReplyMessage(p: Platform, replyId: int, topicId: int): Message {
    var f := ReplyFields(p, replyId, topicId);
    Message(
      ReplySubject(p.specialcharsDecode(f.forumTitle), f.topicTitle),
      p.renderReplyHtml(f),
      ReplyHeaders(p.bbpVersion, p.siteName, p.homeHost),
      ReplyText(f, p.stripAllTags))
  }

  /** The author the reply handler filters out: the hook's `reply_author`,
      or the reply's looked-up author when the hook passed 0. */
  function ReplyAuthor(p: Platform, replyId: int, replyAuthor: UserId): UserId {
    if replyAuthor == 0 then p.replyAuthorId(replyId) else replyAuthor
  }

  /** The event scheduled for batch `index`. */
  function BatchEvent(now: int, index: nat, batch: seq<string>, m: Message): CronEvent {
    CronEvent(now + index * BatchInterval, Recurrence, BatchHook,
      [Job(batch, m.subject, m.html, m.headers, m.text)])
  }

  /** Specification of the scheduling loop: one event per chunk of ten, in order. */
  function Plan(recipients: seq<string>, now: int, m: Message): seq<CronEvent> {
    var batches := Chunk(recipients, BatchSize);
    seq(|batches|, i requires 0 <= i < |batches| => BatchEvent(now, i, batches[i], m))
  }

  /** The addresses of each planned event, in order. */
  function PlannedBatches(plan: seq<CronEvent>): seq<seq<string>>
    requires forall i :: 0 <= i < |plan| ==> |plan[i].args| == 1
  {
    seq(|plan|, i requires 0 <= i < |plan| => plan[i].args[0].batch)
  }

  /** Nothing is planned for no recipients, and something for any. */
  lemma PlanEmpty(recipients: seq<string>, now: int, m: Message)
    ensures Plan(recipients, now, m) == [] <==> recipients == []
  {
  }

  /** Batch i runs at now + 60*i: the first at now, each later one strictly after the one before. */
  lemma PlanTimes(recipients: seq<string>, now: int, m: Message)
    ensures forall i :: 0 <= i < |Plan(recipients, now, m)| ==> Plan(recipients, now, m)[i].timestamp == now + 60 * i
    ensures forall i, j :: 0 <= i < j < |Plan(recipients, now, m)| ==>
      Plan(recipients, now, m)[i].timestamp < Plan(recipients, now, m)[j].timestamp
  {
  }

  /** Every event carries one job holding the shared subject, HTML, headers
      and text, under the same recurrence and hook; only the batch differs. */
  lemma PlanShared(recipients: seq<string>, now: int, m: Message)
    ensures forall e :: e in Plan(recipients, now, m) ==>
      && e.recurrence == Recurrence && e.hook == BatchHook && |e.args| == 1
      && e.args[0].subject == m.subject && e.args[0].message == m.html
      && e.args[0].headers == m.headers && e.args[0].textMessage == m.text
  {
  }

  /** There are ceil(N/10) batches; all but the last hold ten addresses, the
      last one to ten, and read in order they give the recipient list back. */
  lemma PlanBatches(recipients: seq<string>, now: int, m: Message)
    ensures forall i :: 0 <= i < |Plan(recipients, now, m)| ==> |Plan(recipients, now, m)[i].args| == 1
    ensures |Plan(recipients, now, m)| == (|recipients| + 9) / 10
    ensures forall i :: 0 <= i < |Plan(recipients, now, m)| - 1 ==> |Plan(recipients, now, m)[i].args[0].batch| == 10
    ensures recipients != [] ==> 1 <= |Plan(recipients, now, m)[|Plan(recipients, now, m)| - 1].args[0].batch| <= 10
    ensures Flatten(PlannedBatches(Plan(recipients, now, m))) == recipients
  {
    PlannedBatchesAreChunks(recipients, now, m);
    ChunkCount(recipients, BatchSize);
    ChunkSizes(recipients, BatchSize);
    FlattenChunk(recipients, BatchSize);
  }

  /** The batches the plan carries are the chunks of ten of the recipient list. */
  lemma PlannedBatchesAreChunks(recipients: seq<string>, now: int, m: Message)
    ensures forall i :: 0 <= i < |Plan(recipients, now, m)| ==> |Plan(recipients, now, m)[i].args| == 1
    ensures PlannedBatches(Plan(recipients, now, m)) == Chunk(recipients, BatchSize)
  {
    var plan := Plan(recipients, now, m);
    var batches := Chunk(recipients, BatchSize);
    assert |PlannedBatches(plan)| == |batches|;
    forall i | 0 <= i < |batches|
      ensures PlannedBatches(plan)[i] == batches[i]
    {
      assert plan[i] == BatchEvent(now, i, batches[i], m);
    }
  }

  /** Every planned address is the usable address of a subscriber other than the author. */
  lemma PlannedAddressesEligible(ids: seq<UserId>, author: UserId, emailOf: UserId -> Option<string>, now: int, m: Message)
    ensures forall i, e :: 0 <= i < |Plan(Eligible(ids, author, emailOf), now, m)| && e in Plan(Eligible(ids, author, emailOf), now, m)[i].args[0].batch ==>
      exists k :: 0 <= k < |ids| && ids[k] != author && Usable(emailOf(ids[k])) && emailOf(ids[k]).value == e
  {
    var recipients := Eligible(ids, author, emailOf);
    var plan := Plan(recipients, now, m);
    forall i, e | 0 <= i < |plan| && e in plan[i].args[0].batch
      ensures exists k :: 0 <= k < |ids| && ids[k] != author && Usable(emailOf(ids[k])) && emailOf(ids[k]).value == e
    {
      ChunkAt(recipients, BatchSize, i);
      EligibleMembership(ids, author, emailOf, e);
    }
  }

  /** Every address scheduled for a reply belongs to a topic subscriber who
      is not the reply's author: the hook's `reply_author` when it is
      non-zero, the reply's looked-up author when the hook passed 0. */
  lemma ReplyAddressesSkipAuthor(p: Platform, now: int, replyId: int, topicId: int, replyAuthor: UserId)
    ensures forall i, e ::
      0 <= i < |Plan(Eligible(p.topicSubscribers(topicId), ReplyAuthor(p, replyId, replyAuthor), p.emailOf), now, ReplyMessage(p, replyId, topicId))|
      && e in Plan(Eligible(p.topicSubscribers(topicId), ReplyAuthor(p, replyId, replyAuthor), p.emailOf), now, ReplyMessage(p, replyId, topicId))[i].args[0].batch ==>
      exists k ::
        && 0 <= k < |p.topicSubscribers(topicId)|
        && Usable(p.emailOf(p.topicSubscribers(topicId)[k]))
        && p.emailOf(p.topicSubscribers(topicId)[k]).value == e
        && p.topicSubscribers(topicId)[k] != (if replyAuthor != 0 then replyAuthor else p.replyAuthorId(replyId))
  {
    PlannedAddressesEligible(p.topicSubscribers(topicId), ReplyAuthor(p, replyId, replyAuthor), p.emailOf,
      now, ReplyMessage(p, replyId, topicId));
  }

  /** Twenty-one recipients give batches of 10, 10 and 1, at now, now+60 and now+120. */
  lemma TwentyOneRecipients(recipients: seq<string>, now: int, m: Message)
    requires |recipients| == 21
    ensures |Plan(recipients, now, m)| == 3
    ensures |Plan(recipients, now, m)[0].args[0].batch| == 10 && Plan(recipients, now, m)[0].timestamp == now
    ensures |Plan(recipients, now, m)[1].args[0].batch| == 10 && Plan(recipients, now, m)[1].timestamp == now + 60
    ensures |Plan(recipients, now, m)[2].args[0].batch| == 1 && Plan(recipients, now, m)[2].timestamp == now + 120
  {
    PlanBatches(recipients, now, m);
    ChunkAt(recipients, BatchSize, 2);
  }

  /** The scheduling loop: one `wp_schedule_event` per batch, batch `index`
      at now + index * 60. */
  method ScheduleBatches(s: Scheduler, recipients: seq<string>, now: int, m: Message)
    modifies s
    ensures s.events == old(s.events) + Plan(recipients, now, m)
  {
    var batches := Chunk(recipients, BatchSize);
    ghost var plan := Plan(recipients, now, m);
    var index := 0;
    while index < |batches|
      invariant 0 <= index <= |batches| == |plan|
      invariant s.events == old(s.events) + plan[..index]
    {
      s.ScheduleEvent(now + index * BatchInterval, Recurrence, BatchHook,
        [Job(batches[index], m.subject, m.html, m.headers, m.text)]);
      assert plan[index] == BatchEvent(now, index, batches[index], m);
      assert plan[..index + 1] == plan[..index] + [plan[index]];
      index := index + 1;
    }
    assert plan[..index] == plan;
  }

  /** The shared body of both handlers: filter, stop early when nobody is
      left, otherwise schedule every batch and report success. */
  method Dispatch(s: Scheduler, ids: seq<UserId>, author: UserId, emailOf: UserId -> Option<string>, now: int, m: Message)
    returns (scheduled: bool)
    modifies s
    ensures scheduled <==> Eligible(ids, author, emailOf) != []
    ensures s.events == old(s.events) + (if scheduled then Plan(Eligible(ids, author, emailOf), now, m) else [])
  {
    if |ids| == 0 {
      assert Eligible(ids, author, emailOf) == [];
      return false;
    }
    var recipients := CollectRecipients(ids, author, emailOf);
    if |recipients| == 0 {
      return false;
    }
    ScheduleBatches(s, recipients, now, m);
    return true;
  }

  /** `custom_bbp_notify_forum_subscribers`: a new topic in `forumId`. */
  method NotifyForumSubscribers(p: Platform, s: Scheduler, now: int, topicId: int, forumId: int)
    returns (scheduled: bool)
    modifies s
    ensures scheduled <==> Eligible(p.forumSubscribers(forumId), p.topicAuthorId(topicId), p.emailOf) != []
    ensures s.events == old(s.events) +
      (if scheduled then Plan(Eligible(p.forumSubscribers(forumId), p.topicAuthorId(topicId), p.emailOf), now, TopicMessage(p, topicId, forumId)) else [])
  {
    scheduled := Dispatch(s, p.forumSubscribers(forumId), p.topicAuthorId(topicId), p.emailOf, now, TopicMessage(p, topicId, forumId));
  }

  /** `custom_bbp_notify_topic_subscribers`: a new reply in `topicId`. The
      hook's forum id is not used: the topic's own forum names the message. */
  method NotifyTopicSubscribers(p: Platform, s: Scheduler, now: int, replyId: int, topicId: int, forumId: int, replyAuthor: UserId)
    returns (scheduled: bool)
    modifies s
    ensures scheduled <==> Eligible(p.topicSubscribers(topicId), ReplyAuthor(p, replyId, replyAuthor), p.emailOf) != []
    ensures s.events == old(s.events) +
      (if scheduled then Plan(Eligible(p.topicSubscribers(topicId), ReplyAuthor(p, replyId, replyAuthor), p.emailOf), now, ReplyMessage(p, replyId, topicId)) else [])
  {
    var author := ReplyAuthor(p, replyId, replyAuthor);
    scheduled := Dispatch(s, p.topicSubscribers(topicId), author, p.emailOf, now, ReplyMessage(p, replyId, topicId));
  }
}
