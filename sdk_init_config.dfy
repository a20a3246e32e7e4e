/**
 * The SDK initialisation records: `NEMAppInfo`, `NELoggerConfig` and
 * `NEMeetingKitConfig`. Each is a plain record of private fields with a
 * getter and a setter per field and initialised defaults; the kit config
 * embeds one application-info and one logger record, handed out by
 * pointer so that callers fill them in place.
 */
module SdkInitConfig {
  /** C++ `int` on the platforms the SDK targets. */
  newtype int32 = x: int | -0x8000_0000 <= x < 0x8000_0000

  /** `NELogLevel`. */
  datatype LogLevel = Verbose | Debug | Info | Warning | Error

  /**
   * `NEMeetingLanguage`. Only `kNEAutomatic` is named by this record; the
   * header listing the others is not part of this model.
   */
  datatype MeetingLanguage = Automatic | OtherLanguage(code: int)

  /** `NEMAppInfo`. */
  class AppInfo {
    var sdkPath: string
    var organizationName: string
    var applicationName: string
    var productName: string

    constructor ()
      ensures sdkPath == "" && organizationName == "" && applicationName == "" && productName == ""
    {
      sdkPath, organizationName, applicationName, productName := "", "", "", "";
    }

    function SdkPath(): string reads this { sdkPath }
    function OrganizationName(): string reads this { organizationName }
    function ApplicationName(): string reads this { applicationName }
    function ProductName(): string reads this { productName }

    method SetSdkPath(path: string)
      modifies this
      ensures SdkPath() == path
      ensures OrganizationName() == old(OrganizationName()) && ApplicationName() == old(ApplicationName())
      ensures ProductName() == old(ProductName())
    {
      sdkPath := path;
    }

    method SetOrganizationName(name: string)
      modifies this
      ensures OrganizationName() == name
      ensures SdkPath() == old(SdkPath()) && ApplicationName() == old(ApplicationName())
      ensures ProductName() == old(ProductName())
    {
      organizationName := name;
    }

    method SetApplicationName(name: string)
      modifies this
      ensures ApplicationName() == name
      ensures SdkPath() == old(SdkPath()) && OrganizationName() == old(OrganizationName())
      ensures ProductName() == old(ProductName())
    {
      applicationName := name;
    }

    method SetProductName(name: string)
      modifies this
      ensures ProductName() == name
      ensures SdkPath() == old(SdkPath()) && OrganizationName() == old(OrganizationName())
      ensures ApplicationName() == old(ApplicationName())
    {
      productName := name;
    }
  }

  /** `NELoggerConfig`: an empty path means the SDK's own default location. */
  class LoggerConfig {
    var path: string
    var level: LogLevel

    constructor ()
      ensures LoggerPath() == "" && LoggerLevel() == Info
    {
      path, level := "", Info;
    }

    function LoggerPath(): string reads this { path }
    function LoggerLevel(): LogLevel reads this { level }

    method SetLoggerPath(p: string)
      modifies this
      ensures LoggerPath() == p && LoggerLevel() == old(LoggerLevel())
    {
      path := p;
    }

    method SetLoggerLevel(l: LogLevel)
      modifies this
      ensures LoggerLevel() == l && LoggerPath() == old(LoggerPath())
    {
      level := l;
    }
  }

  /** The keep-alive interval, in seconds, a default configuration uses. */
  const DefaultKeepAliveInterval: int32 := 10

  /** `NEMeetingKitConfig`. */
  class MeetingKitConfig {
    /** The embedded records `getAppInfo` and `getLoggerConfig` point into. */
    const appInfo: AppInfo
    const loggerConfig: LoggerConfig
    var appKey: string
    var domain: string
    var useAssetServerConfig: bool
    /** Seconds; a negative interval turns keep-alive off. */
    var keepAliveInterval: int32
    var runAdmin: bool
    var language: MeetingLanguage
    var serverUrl: string

    /** Every field other than the domain, and both embedded records, at their defaults. */
    predicate HasDefaultsBesidesDomain()
      reads this, appInfo, loggerConfig
    {
      && appKey == "" && !useAssetServerConfig && keepAliveInterval == DefaultKeepAliveInterval
      && !runAdmin && language == Automatic && serverUrl == ""
      && appInfo.sdkPath == "" && appInfo.organizationName == "" && appInfo.applicationName == ""
      && appInfo.productName == ""
      && loggerConfig.LoggerPath() == "" && loggerConfig.LoggerLevel() == Info
    }

    /** The default constructor. */
    constructor ()
      ensures domain == "" && HasDefaultsBesidesDomain()
      ensures fresh(appInfo) && fresh(loggerConfig)
    {
      appInfo := new AppInfo();
      loggerConfig := new LoggerConfig();
      appKey, domain, useAssetServerConfig := "", "", false;
      keepAliveInterval, runAdmin, language, serverUrl := DefaultKeepAliveInterval, false, Automatic, "";
    }

    /** The constructors taking a domain: only the domain differs from the defaults. */
    constructor WithDomain(d: string)
      ensures domain == d && HasDefaultsBesidesDomain()
      ensures fresh(appInfo) && fresh(loggerConfig)
    {
      appInfo := new AppInfo();
      loggerConfig := new LoggerConfig();
      appKey, domain, useAssetServerConfig := "", d, false;
      keepAliveInterval, runAdmin, language, serverUrl := DefaultKeepAliveInterval, false, Automatic, "";
    }

    function GetAppInfo(): AppInfo { appInfo }
    function GetLoggerConfig(): LoggerConfig { loggerConfig }
    function GetAppKey(): string reads this { appKey }
    function GetDomain(): string reads this { domain }
    function GetUseAssetServerConfig(): bool reads this { useAssetServerConfig }
    function GetKeepAliveInterval(): int32 reads this { keepAliveInterval }
    function GetRunAdmin(): bool reads this { runAdmin }
    function GetLanguage(): MeetingLanguage reads this { language }
    function GetServerUrl(): string reads this { serverUrl }

    method SetAppKey(value: string)
      modifies this
      ensures GetAppKey() == value
      ensures domain == old(domain) && useAssetServerConfig == old(useAssetServerConfig)
      ensures keepAliveInterval == old(keepAliveInterval) && runAdmin == old(runAdmin)
      ensures language == old(language) && serverUrl == old(serverUrl)
      ensures unchanged(appInfo, loggerConfig)
    {
      appKey := value;
    }

    method SetDomain(value: string)
      modifies this
      ensures GetDomain() == value
      ensures appKey == old(appKey) && useAssetServerConfig == old(useAssetServerConfig)
      ensures keepAliveInterval == old(keepAliveInterval) && runAdmin == old(runAdmin)
      ensures language == old(language) && serverUrl == old(serverUrl)
      ensures unchanged(appInfo, loggerConfig)
    {
      domain := value;
    }

    method SetUseAssetServerConfig(use: bool)
      modifies this
      ensures GetUseAssetServerConfig() == use
      ensures appKey == old(appKey) && domain == old(domain)
      ensures keepAliveInterval == old(keepAliveInterval) && runAdmin == old(runAdmin)
      ensures language == old(language) && serverUrl == old(serverUrl)
      ensures unchanged(appInfo, loggerConfig)
    {
      useAssetServerConfig := use;
    }

    /** Any interval is stored as given, negative ones included; nothing is clamped. */
    method SetKeepAliveInterval(interval: int32)
      modifies this
      ensures GetKeepAliveInterval() == interval
      ensures appKey == old(appKey) && domain == old(domain) && useAssetServerConfig == old(useAssetServerConfig)
      ensures runAdmin == old(runAdmin) && language == old(language) && serverUrl == old(serverUrl)
      ensures unchanged(appInfo, loggerConfig)
    {
      keepAliveInterval := interval;
    }

    method SetRunAdmin(admin: bool)
      modifies this
      ensures GetRunAdmin() == admin
      ensures appKey == old(appKey) && domain == old(domain) && useAssetServerConfig == old(useAssetServerConfig)
      ensures keepAliveInterval == old(keepAliveInterval) && language == old(language) && serverUrl == old(serverUrl)
      ensures unchanged(appInfo, loggerConfig)
    {
      runAdmin := admin;
    }

    method SetLanguage(uiLanguage: MeetingLanguage)
      modifies this
      ensures GetLanguage() == uiLanguage
      ensures appKey == old(appKey) && domain == old(domain) && useAssetServerConfig == old(useAssetServerConfig)
      ensures keepAliveInterval == old(keepAliveInterval) && runAdmin == old(runAdmin) && serverUrl == old(serverUrl)
      ensures unchanged(appInfo, loggerConfig)
    {
      language := uiLanguage;
    }

    method SetServerUrl(url: string)
      modifies this
      ensures GetServerUrl() == url
      ensures appKey == old(appKey) && domain == old(domain) && useAssetServerConfig == old(useAssetServerConfig)
      ensures keepAliveInterval == old(keepAliveInterval) && runAdmin == old(runAdmin) && language == old(language)
      ensures unchanged(appInfo, loggerConfig)
    {
      serverUrl := url;
    }
  }

  /**
   * Filling the embedded logger record through `getLoggerConfig` changes
   * what the kit config reports and nothing else of it.
   */
  method ConfigureLogger(config: MeetingKitConfig, path: string, level: LogLevel)
    modifies config.GetLoggerConfig()
    ensures config.GetLoggerConfig().LoggerPath() == path && config.GetLoggerConfig().LoggerLevel() == level
    ensures unchanged(config, config.GetAppInfo())
  {
    var logger := config.GetLoggerConfig();
    logger.SetLoggerPath(path);
    logger.SetLoggerLevel(level);
  }
}
