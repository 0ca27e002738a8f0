/** The persisted run state of a bot (the `~/.keybot` file) and the command
    that changes it by read-modify-write. */
module Config {
  import opened Outcomes

  /** `DryRun`: describe builds instead of running them; `Paused`: refuse builds. */
  datatype Config = Config(dryRun: bool, paused: bool)

  /** The state assumed whenever the file cannot be read or decoded. */
  const DefaultConfig := Config(true, false)

  /** Go's `(Config, error)` returned by an updater. */
  datatype Updated = Updated(config: Config, err: Option<string>)

  /** A command that replaces the saved config by `updater(saved)`. */
  datatype ConfigCommand = ConfigCommand(desc: string, updater: Config -> Updated)
  {
    /** A config change always shows its outcome in the channel. */
    function ShowResult(): (show: bool)
      ensures show
    {
      true
    }

    function Description(): (d: string)
      ensures d == desc
    {
      desc
    }
  }

  function BoolName(b: bool): string
  {
    if b then "true" else "false"
  }

  /** Go's `%+v` of a `Config`. */
  function Format(c: Config): string
  {
    "{DryRun:" + BoolName(c.dryRun) + " Paused:" + BoolName(c.paused) + "}"
  }

  /** The `.keybot` file in the user's home directory. The environment's
      failures are fixed per file: looking up the current user (needed for the
      path) and writing. A missing file and one that does not decode are both
      `stored == None`. */
  class ConfigFile {
    var stored: Option<Config>
    const userErr: Option<string>
    const writeErr: Option<string>

    constructor (stored: Option<Config>, userErr: Option<string>, writeErr: Option<string>)
      ensures this.stored == stored && this.userErr == userErr && this.writeErr == writeErr
    {
      this.stored := stored;
      this.userErr := userErr;
      this.writeErr := writeErr;
    }

    /** `ReadConfigOrDefault`: the saved config, or `{DryRun: true, Paused: false}`
        when the path, the read or the decoding fails. */
    function ReadOrDefault(): (c: Config)
      reads this
      ensures userErr.Some? || stored.None? ==> c == DefaultConfig
      ensures userErr.None? && stored.Some? ==> c == stored.value
    {
      if userErr.Some? then DefaultConfig
      else match stored
        case None => DefaultConfig
        case Some(saved) => saved
    }

    /** `updateConfig`: write-through. On any failure the config that was read
        comes back with the error and the file is left alone; only full success
        returns (and stores) the updater's result. */
    method UpdateConfig(updater: Config -> Updated) returns (c: Config, err: Option<string>)
      modifies this`stored
      ensures var before := old(ReadOrDefault());
              var u := updater(before);
              if u.err.Some? then c == before && err == u.err && stored == old(stored)
              else if userErr.Some? then c == before && err == userErr && stored == old(stored)
              else if writeErr.Some? then c == before && err == writeErr && stored == old(stored)
              else c == u.config && err == None && stored == Some(u.config)
      ensures err.None? ==> ReadOrDefault() == c
    {
      var config := ReadOrDefault();
      var u := updater(config);
      if u.err.Some? {
        return config, u.err;
      }
      if userErr.Some? {
        return config, userErr;
      }
      if writeErr.Some? {
        return config, writeErr;
      }
      stored := Some(u.config);
      return u.config, None;
    }

    /** `ConfigCommand.Run`: in dry-run mode only describe the change;
        otherwise apply it and report the new config or the error. */
    method Run(cmd: ConfigCommand) returns (r: Reply)
      modifies this`stored
      ensures old(ReadOrDefault()).dryRun ==>
                r == Reply("Dry Run: " + cmd.desc, None) && stored == old(stored)
      ensures !old(ReadOrDefault()).dryRun ==>
                var u := cmd.updater(old(ReadOrDefault()));
                if u.err.Some? then r == Reply("", u.err) && stored == old(stored)
                else if userErr.Some? then r == Reply("", userErr) && stored == old(stored)
                else if writeErr.Some? then r == Reply("", writeErr) && stored == old(stored)
                else r == Reply("Config is now: " + Format(u.config), None) && stored == Some(u.config)
    {
      var config := ReadOrDefault();
      if config.dryRun {
        return Reply("Dry Run: " + cmd.Description(), None);
      }
      var newConfig, err := UpdateConfig(cmd.updater);
      if err.Some? {
        return Reply("", err);
      }
      return Reply("Config is now: " + Format(newConfig), None);
    }
  }
}
