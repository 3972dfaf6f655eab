/** The operating system as the certificate code sees it: the paths that exist
    (files and directories alike) and the external programs run so far. A
    program's effect is not computed: the caller supplies how the run ends,
    with its standard output and the paths it creates, or with the error the
    process reported. */
module System {
  import opened Wrappers

  datatype ExecResult =
    | Ran(stdout: string, writes: set<string>)
    | ExecFailed(message: string)

  /** One `execFile` invocation: program, arguments and working directory. */
  datatype Command = Command(program: string, args: seq<string>, cwd: Option<string>)

  class Machine {
    var paths: set<string>
    var commands: seq<Command>

    constructor (paths: set<string>)
      ensures this.paths == paths && commands == []
    {
      this.paths := paths;
      commands := [];
    }

    /** `fs.existsSync`. */
    predicate Exists(p: string)
      reads this
    {
      p in paths
    }

    /** `fs.mkdirSync(dir, { recursive: true })`; parent directories are not
        tracked. */
    method MakeDirectory(dir: string)
      modifies this
      ensures paths == old(paths) + {dir}
      ensures commands == old(commands)
    {
      paths := paths + {dir};
    }

    /** Runs a program; a run that exits leaves behind the paths it wrote. */
    method Exec(c: Command, outcome: ExecResult) returns (r: ExecResult)
      modifies this
      ensures r == outcome
      ensures commands == old(commands) + [c]
      ensures paths == (if outcome.Ran? then old(paths) + outcome.writes else old(paths))
    {
      commands := commands + [c];
      if outcome.Ran? {
        paths := paths + outcome.writes;
      }
      r := outcome;
    }
  }
}
