/** The records the pages hold, mirrored from the server's JSON replies. Only
    the properties some page reads or writes are kept. */
module Entities {
  import opened Outcomes
  import Text

  /** A linked Google account, listed on the login page. */
  datatype Account = Account(email: string)

  /** An upcoming calendar event; `hangoutLink` is absent when the event has
      no video link. */
  datatype CalendarEvent = CalendarEvent(
    id: string, summary: string, start: string, accountEmail: string, hangoutLink: Option<string>)

  /** A meeting. `start` is a timestamp (milliseconds); `transcript` and
      `description` are absent when the server sends none. The description
      is kept as UTF-16 code units, because the past-meetings card cuts it
      by code-unit count. */
  datatype Meeting = Meeting(
    id: string, summary: string, start: int, description: Option<Text.JsString>,
    transcript: Option<string>, hasTranscript: bool, platform: string)

  /** A generated social post; `status` is "draft" or "published". */
  datatype Post = Post(id: string, platform: string, content: string, status: string)

  /** A saved prompt preset for one social platform. */
  datatype Automation = Automation(id: string, platform: string, name: string, customPrompt: string)

  /** A connected social-media account. */
  datatype SocialAccount = SocialAccount(platform: string, platformUserId: string)

  /** The user's settings record. */
  datatype Settings = Settings(joinLeadMinutes: int)
}
