/** The mail backend that takes its SMTP connection settings from the site
    configuration stored in the database, over the defaults of the standard
    SMTP backend. */
module EmailBackend {
  import opened Base

  /** The connection settings of the standard SMTP backend. */
  datatype SmtpSettings = SmtpSettings(host: string, port: nat, username: string, password: string, useTls: bool)

  /** The stored site configuration (a single row). The TLS column is not
      nullable, but the code that reads it tests it against None, so the
      model keeps the option. */
  datatype SiteConfiguration = SiteConfiguration(
    emailHost: Option<string>,
    emailPort: nat,
    emailHostUser: Option<string>,
    emailHostPassword: Option<string>,
    emailUseTls: Option<bool>,
    defaultFromEmail: Option<string>)

  /** The row a site that never saved its configuration gets: the column
      defaults, port 587 and TLS on, every text null. */
  const DefaultConfiguration: SiteConfiguration := SiteConfiguration(None, 587, None, None, Some(true), None)

  /** `SiteConfiguration.get_solo()`: the stored row, or a row created with the
      column defaults when there is none. It never reports a missing row. */
  function GetSolo(stored: Option<SiteConfiguration>): SiteConfiguration
  {
    if stored.Some? then stored.value else DefaultConfiguration
  }

  /** The settings the backend ends up with. Text values and the port replace
      the defaults only when they are truthy; the TLS flag replaces the
      default whenever it is set, false included. */
  function Merged(defaults: SmtpSettings, c: SiteConfiguration): (s: SmtpSettings)
    ensures s.host != defaults.host ==> Truthy(c.emailHost) && s.host == c.emailHost.value
    ensures s.port != defaults.port ==> c.emailPort != 0 && s.port == c.emailPort
    ensures s.username != defaults.username ==> Truthy(c.emailHostUser) && s.username == c.emailHostUser.value
    ensures s.password != defaults.password ==> Truthy(c.emailHostPassword) && s.password == c.emailHostPassword.value
    ensures s.useTls != defaults.useTls ==> c.emailUseTls == Some(s.useTls)
  {
    SmtpSettings(
      if Truthy(c.emailHost) then c.emailHost.value else defaults.host,
      if c.emailPort != 0 then c.emailPort else defaults.port,
      if Truthy(c.emailHostUser) then c.emailHostUser.value else defaults.username,
      if Truthy(c.emailHostPassword) then c.emailHostPassword.value else defaults.password,
      if c.emailUseTls.Some? then c.emailUseTls.value else defaults.useTls)
  }

  /** A site without a stored configuration does not keep the standard
      defaults: the created row sets port 587 and TLS on, and leaves the rest. */
  lemma NoStoredRowUsesColumnDefaults(defaults: SmtpSettings)
    ensures Merged(defaults, GetSolo(None)) == defaults.(port := 587, useTls := true)
  {
  }

  /** A configuration with every value blank, a zero port and no TLS choice
      changes nothing. */
  lemma BlankConfigurationKeepsDefaults(defaults: SmtpSettings, c: SiteConfiguration)
    requires !Truthy(c.emailHost) && !Truthy(c.emailHostUser) && !Truthy(c.emailHostPassword)
    requires c.emailPort == 0 && c.emailUseTls.None?
    ensures Merged(defaults, c) == defaults
  {
  }

  /** Every stored value that is set wins over the default. */
  lemma StoredValuesWin(defaults: SmtpSettings, c: SiteConfiguration)
    ensures Truthy(c.emailHost) ==> Merged(defaults, c).host == c.emailHost.value
    ensures c.emailPort != 0 ==> Merged(defaults, c).port == c.emailPort
    ensures Truthy(c.emailHostUser) ==> Merged(defaults, c).username == c.emailHostUser.value
    ensures Truthy(c.emailHostPassword) ==> Merged(defaults, c).password == c.emailHostPassword.value
    ensures c.emailUseTls.Some? ==> Merged(defaults, c).useTls == c.emailUseTls.value
  {
  }

  /** A stored TLS choice of false switches TLS off even when the default is on. */
  lemma StoredTlsOffWins(defaults: SmtpSettings, c: SiteConfiguration)
    requires c.emailUseTls == Some(false)
    ensures !Merged(defaults, c).useTls
  {
  }

  /** `DbEmailBackend`: the standard backend's settings, then the overrides
      of the configuration row one field at a time. */
  class DbEmailBackend {
    var failSilently: bool
    var host: string
    var port: nat
    var username: string
    var password: string
    var useTls: bool

    function Settings(): SmtpSettings
      reads this
    {
      SmtpSettings(host, port, username, password, useTls)
    }

    /** `stored` is the configuration row, if the site has saved one. */
    constructor (failSilently: bool, defaults: SmtpSettings, stored: Option<SiteConfiguration>)
      ensures this.failSilently == failSilently
      ensures Settings() == Merged(defaults, GetSolo(stored))
    {
      this.failSilently := failSilently;
      host := defaults.host;
      port := defaults.port;
      username := defaults.username;
      password := defaults.password;
      useTls := defaults.useTls;
      new;
      var c := GetSolo(stored);
      if Truthy(c.emailHost) {
        host := c.emailHost.value;
      }
      if c.emailPort != 0 {
        port := c.emailPort;
      }
      if Truthy(c.emailHostUser) {
        username := c.emailHostUser.value;
      }
      if Truthy(c.emailHostPassword) {
        password := c.emailHostPassword.value;
      }
      if c.emailUseTls.Some? {
        useTls := c.emailUseTls.value;
      }
    }
  }
}
