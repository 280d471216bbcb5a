/** What the bot pushes to its one LINE recipient, and how a join run is
    started. Message texts are abstracted to the facts each one reports. */
module Notices {
  import opened Clock

  /** Why an automatic join ended without entering the meeting. */
  datatype JoinFailure =
    | NoFutureSchedule                          // no record at or after now
    | NextUrlMissing(date: Date, time: Time)    // the nearest record has no link yet
    | CannotOpenUrl                             // loading the link failed on the last attempt
    | NoBrowserJoinButton                       // "join from this browser" not found
    | NoNameField                               // display-name input not found
    | NoAudioOption                             // "no audio" radio button not found
    | NoJoinNowButton                           // "join now" button not found
    | HostTimeout                               // not admitted within the waiting limit
    | ProgramError                              // any other failure of the browser session

  /** One pushed message. */
  datatype Notice =
    | TimeUpdated(date: Date, time: Time)       // time of the record for a day changed
    | UrlUpdated(date: Date)                    // link of the record for a day changed
    | DayNotFound(date: Date)                   // no record carries the requested date
    | NextUrlUpdated(date: Date, time: Time)    // link of the nearest future record changed
    | NoFutureForUrl                            // bare link sent, but no future record
    | UrlMissingToday                           // reminder: today's record has no link
    | RetryStarting                             // manual retry accepted
    | HelpText                                  // list of the accepted commands
    | TriggerWithoutUrl(date: Date, time: Time) // a record's minute came, but it has no link
    | TriggerJoining(date: Date, time: Time)    // a record's minute came, join started
    | JoinFailed(reason: JoinFailure)           // terminal failure of a join run
    | Joined                                    // admitted into the meeting

  /** The argument a join run is started with: an explicit link, or none, in
      which case the run looks up the nearest future record itself. */
  datatype JoinRequest = UseUrl(url: string) | UseNextSchedule
}
