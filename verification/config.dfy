/** The gateway's configuration object, read once from the environment at
    startup. A setting that is not set in the environment is `None`. */
module Config {
  import opened Wrappers

  datatype AppConfig = AppConfig(
    mqttBrokerApiUrl: Option<string>,
    mqttBrokerApiPort: Option<string>,
    mqttBrokerUsername: Option<string>,
    mqttBrokerPassword: Option<string>,
    openHabServerIp: Option<string>,
    openHabServerPort: Option<string>)
}
