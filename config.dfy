/** The settings both commands read: each is the command-line option if it is
    truthy, else the environment variable, else the empty string. */
module Config {

  /** The three settings, as options or as environment variables. The empty
      string stands for a setting that is absent, `undefined` or empty: all
      three are falsy for `||`. */
  datatype Settings = Settings(dbUrl: string, dbKey: string, migrationsDir: string)

  /** Reported by both commands when the resolved migrations folder does not exist. */
  const MigrationsDirError := "Environment var MIGRATIONS_DIR or --migrationsDir option must be provided and the folder must exist!"

  /** `option || envVar || ''` */
  function Pick(option: string, envVar: string): (r: string)
    ensures option != "" ==> r == option
    ensures r == option || r == envVar
    ensures r == "" <==> option == "" && envVar == ""
  {
    if option != "" then option else envVar
  }

  /** The settings `migrate` and `validate` work with. */
  function Resolved(options: Settings, env: Settings): Settings
  {
    Settings(Pick(options.dbUrl, env.dbUrl), Pick(options.dbKey, env.dbKey),
             Pick(options.migrationsDir, env.migrationsDir))
  }

  /** An environment variable is consulted only when the option is falsy. */
  lemma OptionWins(options: Settings, env: Settings, env': Settings)
    requires options.dbUrl != "" && options.dbKey != "" && options.migrationsDir != ""
    ensures Resolved(options, env) == Resolved(options, env') == options
  {
  }
}
