/**
 * ReSharperExecutor: the builder of the inspectcode command line. Setters record the
 * report file, the solution, the project, the timeout and extra arguments; toCommand lays
 * them out in a fixed order, the MSBuild properties joined by ';' into one argument.
 */
module Executor {
  import opened Wrappers
  import opened JavaText

  /** org.sonar.api.utils.command.Command: the program and its arguments, in order. */
  datatype Command = Command(executable: string, arguments: seq<string>)

  /** The `/properties:` argument: none for no properties, otherwise one argument with the
      properties separated by ';' and no ';' after the last. */
  function PropertiesArgument(properties: seq<string>): seq<string> {
    if properties == [] then [] else ["/properties:" + Join(properties, ';')]
  }

  /** The command toCommand builds from the absolute paths of the executable, the report
      and the solution, and the builder's project, arguments and properties. */
  function CommandOf(executable: string, projectName: string, report: string, arguments: seq<string>,
                     properties: seq<string>, solution: string): Command {
    Command(executable,
            (if projectName == "" then [] else ["/project=" + projectName])
            + ["/output=" + report] + arguments + PropertiesArgument(properties) + [solution])
  }

  /** The layout of the command: `/project=` first exactly when a project is named, then
      `/output=`, the added arguments in order, `/properties:` exactly when there are
      properties, and the solution last. */
  lemma CommandLayout(executable: string, projectName: string, report: string, arguments: seq<string>,
                      properties: seq<string>, solution: string)
    ensures var c := CommandOf(executable, projectName, report, arguments, properties, solution);
            var p := if projectName == "" then 0 else 1;
            var q := if properties == [] then 0 else 1;
      && c.executable == executable
      && |c.arguments| == p + 1 + |arguments| + q + 1
      && (projectName != "" ==> c.arguments[0] == "/project=" + projectName)
      && c.arguments[p] == "/output=" + report
      && (forall i :: 0 <= i < |arguments| ==> c.arguments[p + 1 + i] == arguments[i])
      && (properties != [] ==> c.arguments[p + 1 + |arguments|] == "/properties:" + Join(properties, ';'))
      && c.arguments[|c.arguments| - 1] == solution
  {
    var head := (if projectName == "" then [] else ["/project=" + projectName]) + ["/output=" + report];
    AppendedAt(head, arguments);
    AppendedAt(head + arguments, PropertiesArgument(properties));
    AppendedAt(head + arguments + PropertiesArgument(properties), [solution]);
  }

  /** Properties free of ';' come back whole when the `/properties:` value is split at ';':
      the joined form loses nothing. */
  lemma {:induction false} JoinedPropertiesSplitBack(properties: seq<string>)
    requires properties != []
    requires forall k :: 0 <= k < |properties| ==> NoneOf(properties[k], {';'})
    ensures Fields(Join(properties, ';'), {';'}) == properties
  {
    if |properties| == 1 {
      FieldsOfPlain(properties[0], {';'});
    } else {
      JoinedPropertiesSplitBack(properties[1..]);
      FieldsAtDelimiter(properties[0], ';', Join(properties[1..], ';'), {';'});
      assert [properties[0]] + properties[1..] == properties;
    }
  }

  class ReSharperExecutor {
    /** File.getAbsolutePath */
    const absolutePath: string -> string
    var reportFile: Option<string>
    var executable: Option<string>
    var arguments: seq<string>
    var properties: seq<string>
    /** A null project name is modelled as "", which isNotEmpty treats alike. */
    var projectName: string
    var solution: Option<string>
    /** In minutes. */
    var timeout: int

    constructor (absolutePath: string -> string)
      ensures this.absolutePath == absolutePath
      ensures reportFile == None && executable == None && solution == None
      ensures arguments == [] && properties == [] && projectName == "" && timeout == 0
    {
      this.absolutePath := absolutePath;
      reportFile := None;
      executable := None;
      arguments := [];
      properties := [];
      projectName := "";
      solution := None;
      timeout := 0;
    }

    method SetReportFile(reportFile: Option<string>) returns (self: ReSharperExecutor)
      modifies this`reportFile
      ensures this.reportFile == reportFile && self == this
    {
      this.reportFile := reportFile;
      return this;
    }

    method SetSolution(solution: Option<string>) returns (self: ReSharperExecutor)
      modifies this`solution
      ensures this.solution == solution && self == this
    {
      this.solution := solution;
      return this;
    }

    method SetProject(projectName: string) returns (self: ReSharperExecutor)
      modifies this`projectName
      ensures this.projectName == projectName && self == this
    {
      this.projectName := projectName;
      return this;
    }

    method SetTimeOut(timeout: int) returns (self: ReSharperExecutor)
      modifies this`timeout
      ensures this.timeout == timeout && self == this
    {
      this.timeout := timeout;
      return this;
    }

    method SetExecutable(executable: Option<string>)
      modifies this`executable
      ensures this.executable == executable
    {
      this.executable := executable;
    }

    /** addProperties: the given properties after those already there, duplicates kept. */
    method AddProperties(properties: seq<string>) returns (self: ReSharperExecutor)
      modifies this`properties
      ensures this.properties == old(this.properties) + properties && self == this
    {
      this.properties := this.properties + properties;
      return this;
    }

    /** addArgument: name and value as one argument, nothing for an empty value. */
    method AddArgument(name: string, value: string)
      modifies this`arguments
      ensures arguments == old(arguments) + (if value == "" then [] else [name + value])
    {
      if value == "" {
        return;
      }
      arguments := arguments + [name + value];
    }

    method SetCachesHome(cachesHome: string)
      modifies this`arguments
      ensures arguments == old(arguments) + (if cachesHome == "" then [] else ["/caches-home=" + cachesHome])
    {
      if cachesHome == "" {
        return;
      }
      arguments := arguments + ["/caches-home=" + cachesHome];
    }

    method SetProfile(file: Option<string>)
      modifies this`arguments
      ensures arguments == old(arguments) + (if file.None? then [] else ["/profile=" + absolutePath(file.value)])
    {
      if file.None? {
        return;
      }
      arguments := arguments + ["/profile=" + absolutePath(file.value)];
    }

    /** addPropertiesIfSet: the properties each followed by ';' in a buffer, the last ';'
        cut off, the result added as one `/properties:` argument. */
    method AddPropertiesIfSet(command: seq<string>) returns (result: seq<string>)
      ensures result == command + PropertiesArgument(properties)
    {
      if properties == [] {
        return command;
      }
      var sb := "";
      var k := 0;
      while k < |properties|
        invariant 0 <= k <= |properties|
        invariant sb == JoinTerminated(properties[..k], ';')
      {
        assert properties[..k + 1][..k] == properties[..k];
        sb := sb + properties[k] + [';'];
        k := k + 1;
      }
      assert properties[..k] == properties;
      JoinTerminatedIsJoinPlusSep(properties, ';');
      var argument := sb[..|sb| - 1];
      assert argument == Join(properties, ';');
      result := command + ["/properties:" + argument];
    }

    /** The loop of toCommand adding the builder's arguments. */
    method AddArguments(command: seq<string>) returns (result: seq<string>)
      ensures result == command + arguments
    {
      result := command;
      var k := 0;
      while k < |arguments|
        invariant 0 <= k <= |arguments|
        invariant result == command + arguments[..k]
      {
        AppendAssoc(command, arguments[..k], [arguments[k]]);
        assert arguments[..k + 1] == arguments[..k] + [arguments[k]];
        result := result + [arguments[k]];
        k := k + 1;
      }
      assert arguments[..k] == arguments;
    }

    /** toCommand; a missing executable, report file or solution is a NullPointerException
        in the source, so they are required here. */
    method ToCommand() returns (command: Command)
      requires executable.Some? && reportFile.Some? && solution.Some?
      ensures command == CommandOf(absolutePath(executable.value), projectName, absolutePath(reportFile.value),
                                   arguments, properties, absolutePath(solution.value))
    {
      var args: seq<string> := [];
      if projectName != "" {
        args := args + ["/project=" + projectName];
      }
      args := args + ["/output=" + absolutePath(reportFile.value)];
      args := AddArguments(args);
      args := AddPropertiesIfSet(args);
      args := args + [absolutePath(solution.value)];
      command := Command(absolutePath(executable.value), args);
    }
  }
}
