# EmailIt bbPress notifications, modelled in Dafny

This project models the notification core of the EmailIt bbPress plugin
(`emailit_bbpress.php`). When bbPress reports a new topic or a new reply,
the plugin replaces bbPress's own subscriber mail. It takes the subscribers
of the forum (for a topic) or of the topic (for a reply). It drops the author
and every user without a usable address. If nobody is left, it returns
`false`. Otherwise it builds one subject, one HTML body, one plain-text body
and one header list. It splits the recipients into batches of ten
(`array_chunk`). For each batch it registers a WordPress cron event on hook
`emailit_process_email_batch` with recurrence `emailit_every_minute`. Batch
*i* starts at `time() + 60*i`. Then the handler returns `true`.

Layout:

- `base.dfy` (`Base`): `Option`, PHP's `empty()` on a string (`""` and
  `"0"`), and a first-occurrence search.
- `array_chunk.dfy` (`ArrayChunk`): `array_chunk` as `Chunk`, with lemmas on
  the count, the sizes and the contents of the chunks.
- `recipients.dfy` (`Recipients`): the recipient filter, as the function
  `Eligible` and the loop `CollectRecipients` proved against it.
- `compose.dfy` (`Compose`): subjects, header lists and the two plain-text
  builders. `SplitForumTag` and `HeaderName` read these strings back, so
  their shape can be stated as a round trip.
- `cron.dfy` (`Cron`): the job payload and a `Scheduler` class whose
  `events` sequence grows by one for each `wp_schedule_event` call.
- `notify.dfy` (`Notify`): the two handlers. They share `Dispatch`, which
  is proved against the planning function `Plan`.

The WordPress and bbPress lookups are fields of a `Platform` value. They are
functions of the id they are called with. This covers subscriber lists,
author ids, `get_userdata`, titles, URLs, content, the logo, the site name,
the home host and `bbp_get_version`. It also covers `wp_specialchars_decode`,
`wp_strip_all_tags` and the two HTML templates, which the model treats as
uninterpreted. `time()` is the parameter `now`.

The model follows the code. Recipients are not deduplicated: a user listed
twice, or two users sharing an address, give repeated addresses. The batch
size (10) and the interval (60 seconds) are constants.

## Model

| member | source | states |
|---|---|---|
| ArrayChunk.Chunk | emailit_bbpress.php:165 | `array_chunk`: no chunks exactly for the empty list, and every chunk holds 1 to `size` elements |
| ArrayChunk.ChunkAt | emailit_bbpress.php:165 | chunk *i* is exactly the slice from `i*size` to `(i+1)*size`, cut at the end of the list |
| ArrayChunk.ChunkCount | emailit_bbpress.php:162-165 | the number of chunks is the ceiling of N/size: the least count whose capacity covers N |
| ArrayChunk.ChunkSizes | emailit_bbpress.php:322-325 | every chunk but the last holds exactly `size` elements; the last holds 1 to `size` |
| ArrayChunk.FlattenChunk | emailit_bbpress.php:325 | concatenating the chunks in order gives the input list back |
| Recipients.Eligible | emailit_bbpress.php:115-124 | the selected list is no longer than the subscriber list and holds no PHP-empty address |
| Recipients.EligibleAppend | emailit_bbpress.php:276-283 | selection distributes over concatenation of subscriber lists, so subscriber order is kept |
| Recipients.EligibleMembership | emailit_bbpress.php:116-122 | an address is selected if and only if some subscriber other than the author has it as a usable address |
| Recipients.EligibleEmpty | emailit_bbpress.php:126-128 | the list is empty if and only if every subscriber is the author or has no usable address |
| Recipients.AuthorIgnored | emailit_bbpress.php:277 | the author's own lookup never influences the list: changing what is known about the author changes nothing |
| Recipients.CollectRecipients | emailit_bbpress.php:275-283 | the foreach loop builds exactly the `Eligible` list |
| Compose.TopicSubject | emailit_bbpress.php:178 | the new-topic subject `[decoded forum title] New Topic: title`; its shape is stated by TopicSubjectRoundTrip |
| Compose.TopicSubjectRoundTrip | emailit_bbpress.php:178 | for forum titles without `]`, a new-topic subject is read back as exactly the decoded forum title and `New Topic: ` plus the title |
| Compose.BracketTitleAmbiguous | emailit_bbpress.php:178 | for a forum title holding `]` the subject is ambiguous: the subject of forum `a] b` reads back as forum `a` |
| Compose.ReplySubject | emailit_bbpress.php:339 | the reply subject `[decoded forum title] title`; its shape is stated by ReplySubjectRoundTrip |
| Compose.ReplySubjectRoundTrip | emailit_bbpress.php:339 | for forum titles without `]`, a reply subject is read back as exactly the decoded forum title and the title |
| Compose.TopicHeaders | emailit_bbpress.php:180-184 | the topic header list; its names and order are stated by TopicHeaderNames |
| Compose.TopicHeaderNames | emailit_bbpress.php:180-184 | topic jobs carry exactly three headers: Content-Type, X-EmailIt-Source, X-bbPress, in that order |
| Compose.ReplyHeaders | emailit_bbpress.php:341-345 | the reply header list; its names and order are stated by ReplyHeaderNames |
| Compose.NoReplyMailbox | emailit_bbpress.php:344 | the `Name <noreply@host>` value of the reply's From header |
| Compose.ReplyHeaderNames | emailit_bbpress.php:341-345 | reply jobs carry exactly Content-Type, X-bbPress and From headers, in that order |
| Compose.HeadersSingleLine | emailit_bbpress.php:344 | every header is a single line when the version, site name and host hold no newline |
| Compose.NewTopicText | emailit_bbpress.php:244-255 | the plain-text topic body, line for line; its shape is stated by NewTopicTextShape |
| Compose.NewTopicTextShape | emailit_bbpress.php:244-255 | the topic text starts with the forum and author lines and ends with the link line and the unsubscribe footer |
| Compose.ReplyText | emailit_bbpress.php:405-416 | the plain-text reply body, line for line; its shape is stated by ReplyTextShape |
| Compose.ReplyTextShape | emailit_bbpress.php:405-416 | the reply text starts with the author line and ends with the forum, topic and link lines and the unsubscribe footer |
| Cron.Scheduler.ScheduleEvent | emailit_bbpress.php:172-187 | `wp_schedule_event` appends one event with the given time, recurrence, hook and arguments |
| Notify.LogoUrl | emailit_bbpress.php:136-140 | the logo URL: the custom logo's image URL when a logo is set, otherwise empty |
| Notify.TopicFields | emailit_bbpress.php:130-134 | the topic fields, with the forum title taken from the hook's forum id |
| Notify.TopicMessage | emailit_bbpress.php:130-159 | the new-topic message: subject from the decoded forum title, opaque HTML, topic headers, topic text |
| Notify.ReplyFields | emailit_bbpress.php:289-294 | the reply fields; the forum title is looked up through the topic's own forum id |
| Notify.ReplyMessage | emailit_bbpress.php:289-319 | the new-reply message: subject from the decoded forum title, opaque HTML, reply headers, reply text |
| Notify.Plan | emailit_bbpress.php:161-188 | one event per chunk of ten, batch i at now + 60*i; its properties are stated by PlanEmpty, PlanTimes, PlanShared and PlanBatches |
| Notify.PlanEmpty | emailit_bbpress.php:285-287 | nothing is planned exactly when there are no recipients |
| Notify.PlanTimes | emailit_bbpress.php:333-334 | batch *i* runs at now + 60*i, so the first runs at now and times strictly increase |
| Notify.PlanShared | emailit_bbpress.php:176-186 | every event has one job with the same subject, HTML, headers and text, under the same recurrence and hook |
| Notify.PlannedBatchesAreChunks | emailit_bbpress.php:165-177 | the batch carried by event i is exactly chunk i of `array_chunk($recipients, 10)`, and every event carries one job |
| Notify.PlanBatches | emailit_bbpress.php:161-167 | there are ceil(N/10) batches; all but the last hold 10, the last 1 to 10; read in order they give the recipients back |
| Notify.PlannedAddressesEligible | emailit_bbpress.php:116-121 | every scheduled address is the usable address of a subscriber other than the author |
| Notify.ReplyAddressesSkipAuthor | emailit_bbpress.php:271-283 | every address scheduled for a reply belongs to a topic subscriber other than `reply_author`, or other than the reply's looked-up author when `reply_author` is 0 |
| Notify.TwentyOneRecipients | emailit_bbpress.php:322-334 | 21 recipients give batches of 10, 10 and 1 at now, now+60 and now+120 |
| Notify.ScheduleBatches | emailit_bbpress.php:327-349 | the scheduling loop appends exactly the planned events, in batch order |
| Notify.Dispatch | emailit_bbpress.php:103-128 | returns true exactly when some recipient survives; then it appends the plan, otherwise nothing |
| Notify.NotifyForumSubscribers | emailit_bbpress.php:99-191 | the new-topic handler: forum subscribers minus the topic author; schedules the topic message's plan and returns true, or schedules nothing and returns false |
| Notify.NotifyTopicSubscribers | emailit_bbpress.php:257-352 | the new-reply handler: topic subscribers minus the effective reply author; reply message named after the topic's own forum; same scheduling and result |

## Left out

- Hook wiring, the singleton, the dependency check and the updater (lines
  18-87) are plugin glue.
- The admin tab (lines 89-97) is user interface.
- The HTML templates (lines 193-242 and 354-403) are opaque. Besides the
  fields they receive they read `get_bloginfo('name')` (lines 217, 219, 378,
  380); the renderers are fields of `Platform`, so they are fixed together
  with the site name.
- The `WP_DEBUG` logging is I/O and changes no result.
- `time()` is read once in every loop iteration. The model reads it once
  (`now`), so a clock tick between two iterations is not modelled.
- `wp_schedule_event` can fail (its return value is ignored). The model
  always appends, and it does not model how cron stores, runs or repeats the
  event.
- Integers are unbounded. PHP's 64-bit overflow of `time() + 60*i` cannot
  happen for realistic batch counts and is not modelled.
- User ids are integers compared with `!=`. PHP's loose comparison of
  non-integer ids is not modelled.
- Sending a batch is not part of this model. The `emailit_process_email_batch`
  callback, the mail transport and any fallback live in the EmailIt Mailer
  plugin, which is not part of this model.
