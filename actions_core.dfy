/**
 * The part of the `@actions/core` logger that the core is handed: reading
 * an input, writing info and error lines, and marking the run failed.
 */
module ActionsCore {
  import opened Wrappers

  datatype LogEntry = Info(text: string) | Error(text: string)

  class CoreLib {
    /** The action's inputs as `getInput` returns them; an absent name reads as "". */
    const inputs: map<string, string>
    /** Every line written through `info` and `error`, oldest first. */
    var log: seq<LogEntry>
    /** The message given to `setFailed`, once it has been called. */
    var failure: Option<string>

    constructor (inputs: map<string, string>)
      ensures this.inputs == inputs && log == [] && failure == None
    {
      this.inputs := inputs;
      log := [];
      failure := None;
    }

    function GetInput(name: string): (value: string)
      ensures name in inputs ==> value == inputs[name]
      ensures name !in inputs ==> value == ""
    {
      if name in inputs then inputs[name] else ""
    }

    method Info(text: string)
      modifies this`log
      ensures log == old(log) + [LogEntry.Info(text)]
    {
      log := log + [LogEntry.Info(text)];
    }

    method Error(text: string)
      modifies this`log
      ensures log == old(log) + [LogEntry.Error(text)]
    {
      log := log + [LogEntry.Error(text)];
    }

    method SetFailed(message: string)
      modifies this`failure
      ensures failure == Some(message)
    {
      failure := Some(message);
    }
  }
}
