/** Process-wide configuration shared by the session service and the webhook controller,
    and the `.env` file the controller rewrites. */
module AppConfig {
  import opened Wrappers

  /** `config`: the webhook URLs are replaced at run time, the session limit is fixed. */
  class Config {
    var webhookUrls: seq<string>
    const maxSessions: nat

    constructor (webhookUrls: seq<string>, maxSessions: nat)
      ensures this.webhookUrls == webhookUrls && this.maxSessions == maxSessions
    {
      this.webhookUrls := webhookUrls;
      this.maxSessions := maxSessions;
    }
  }

  /** The `.env` file at the controller's configuration path; `None` when it does not exist. */
  class EnvFile {
    var content: Option<string>

    constructor (content: Option<string>)
      ensures this.content == content
    {
      this.content := content;
    }
  }
}
