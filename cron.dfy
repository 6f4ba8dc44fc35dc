/** The slice of WordPress's cron API the handlers use: `wp_schedule_event`
    records an event (first run, recurrence name, hook, arguments). */
module Cron {

  /** The single argument each batch event carries: one batch of addresses
      plus the message parts shared by the whole notification. */
  datatype Job = Job(
    batch: seq<string>,
    subject: string,
    message: string,
    headers: seq<string>,
    textMessage: string)

  datatype CronEvent = CronEvent(timestamp: int, recurrence: string, hook: string, args: seq<Job>)

  /** The events scheduled so far, oldest first. */
  class Scheduler {
    var events: seq<CronEvent>

    constructor ()
      ensures events == []
    {
      events := [];
    }

    /** `wp_schedule_event($timestamp, $recurrence, $hook, $args)`. */
    method ScheduleEvent(timestamp: int, recurrence: string, hook: string, args: seq<Job>)
      modifies this
      ensures events == old(events) + [CronEvent(timestamp, recurrence, hook, args)]
    {
      events := events + [CronEvent(timestamp, recurrence, hook, args)];
    }
  }
}
