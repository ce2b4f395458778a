/** Integer settings of the bot: the trial, starting allotment and price constants. */
module Config {
  /** Length of the free trial, in whole days. */
  const TrialDays: int := 3

  /** Tokens a new account starts with. */
  const TrialTokens: int := 10

  /** Price of one token, in roubles. */
  const TokenPrice: int := 10

  /** Timestamps are whole seconds; one day is this many of them. */
  const SecondsPerDay: int := 86400
}
