/** The constants of the bot's configuration object. Environment-dependent
    settings (keys, bot token, chat and thread ids, the enabled flag) are
    parameters of the members that read them. */
module Config {

  const TokenSymbol: string := "0G"
  const TokenDecimals: nat := 18

  const FileExtensions: seq<string> := [".txt", ".json", ".csv", ".bin", ".md", ".png"]
  const FileSizeMinKB: nat := 1
  const FileSizeMaxKB: nat := 1024

  const CooldownMinHours: nat := 10
  const CooldownMaxHours: nat := 16
  const CooldownMinMinutes: nat := 0
  const CooldownMaxMinutes: nat := 59

  const MaxRetries: nat := 3
  const RetryDelay: nat := 5000
  const BackoffMultiplier: nat := 2
}
