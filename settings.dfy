/** The `Settings` dataclass and its defaults. */
module AppSettings {

  datatype SettingsValue = SettingsValue(appName: string, version: string, debug: bool)

  const Defaults := SettingsValue("MyCLIApp", "0.1", false)

  class Settings {
    var appName: string
    var version: string
    var debug: bool

    /** `Settings()` */
    constructor ()
      ensures Value() == Defaults
    {
      appName, version, debug := "MyCLIApp", "0.1", false;
    }

    function Value(): SettingsValue
      reads this
    {
      SettingsValue(appName, version, debug)
    }
  }
}
