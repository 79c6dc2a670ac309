/** The text `build_dockerfile` writes: the base image, an `EXPOSE` line
    when ports are given, and the `CMD` line. */
module Dockerfile {
  import opened Common

  /** A command given as a list of arguments or as one string. */
  datatype Command = Exec(args: seq<string>) | Shell(line: string)

  const BaseImage := "FROM tutum/buildstep\n\n"

  /** Ports count as given when present and non-empty. Only `None` and a
      non-empty string are pinned down; treating the empty string as absent
      is an assumption of this model. */
  predicate PortsGiven(ports: Option<string>) { ports.Some? && ports.value != "" }

  function ExposeSection(ports: Option<string>): string {
    if PortsGiven(ports) then "EXPOSE " + ports.value + "\n\n" else ""
  }

  /** A list is joined with commas inside brackets; a string is kept. */
  function CommandText(command: Command): string {
    match command
    case Exec(args) => "[" + Join(args, ',') + "]"
    case Shell(line) => line
  }

  function CmdLine(command: Command): string { "CMD " + CommandText(command) }

  // Two facts about concatenation, stated once for any strings so that the
  // verifier does not have to compare the literal texts character by
  // character.

  lemma Reassociate(a: string, b: string, c: string)
    ensures a + b + c == a + (b + c)
  {
  }

  lemma Halves(a: string, b: string)
    ensures (a + b)[..|a|] == a && (a + b)[|a|..] == b
  {
  }

  /** `build_dockerfile`, the text only: it starts with the base image and
      ends with the `CMD` line. */
  function BuildDockerfile(ports: Option<string>, command: Command): (r: string)
    ensures |BaseImage| <= |r| && r[..|BaseImage|] == BaseImage
    ensures |CmdLine(command)| <= |r| && r[|r| - |CmdLine(command)|..] == CmdLine(command)
  {
    var head := BaseImage + ExposeSection(ports);
    Halves(head, CmdLine(command));
    Reassociate(BaseImage, ExposeSection(ports), CmdLine(command));
    Halves(BaseImage, ExposeSection(ports) + CmdLine(command));
    head + CmdLine(command)
  }

  /** After the base image the file starts with `EXPOSE ` exactly when
      ports are given, and otherwise is the `CMD` line. */
  lemma DockerfileLayout(ports: Option<string>, command: Command)
    ensures var rest := BuildDockerfile(ports, command)[|BaseImage|..];
      (|rest| >= 7 && rest[..7] == "EXPOSE ") <==> PortsGiven(ports)
    ensures var rest := BuildDockerfile(ports, command)[|BaseImage|..];
      if PortsGiven(ports) then rest == "EXPOSE " + ports.value + "\n\n" + CmdLine(command)
      else rest == CmdLine(command)
  {
    var text := BuildDockerfile(ports, command);
    var rest := ExposeSection(ports) + CmdLine(command);
    Reassociate(BaseImage, ExposeSection(ports), CmdLine(command));
    Halves(BaseImage, rest);
    if PortsGiven(ports) {
      var tail := ports.value + "\n\n" + CmdLine(command);
      Reassociate("EXPOSE ", ports.value + "\n\n", CmdLine(command));
      Halves("EXPOSE ", tail);
    } else {
      assert rest[0] == 'C' && "EXPOSE "[0] == 'E';
    }
  }

  /** The arguments of a list command can be read back from its `CMD` text
      when none of them holds a comma. */
  lemma ExecArgsReadBack(args: seq<string>)
    requires |args| > 0 && forall i :: 0 <= i < |args| ==> ',' !in args[i]
    ensures var t := CommandText(Exec(args));
      |t| >= 2 && t[0] == '[' && t[|t| - 1] == ']' && Split(t[1..|t| - 1], ',') == args
  {
    var t := CommandText(Exec(args));
    assert t[1..|t| - 1] == Join(args, ',');
    SplitJoin(args, ',');
  }

  /** A two-argument list command is written with one comma between them. */
  lemma TwoArgCommand(a: string, b: string)
    ensures CommandText(Exec([a, b])) == "[" + a + "," + b + "]"
  {
    assert [a, b][1..] == [b];
    assert Join([a, b], ',') == a + [','] + b;
  }

  // The three files the Dockerfile test compares, written line by line.

  lemma ShownWithPorts()
    ensures BuildDockerfile(Some("8080 8888"), Exec(["/bin/bash", "/run.sh"])) ==
            "FROM tutum/buildstep\n\n" + "EXPOSE 8080 8888\n\n" + "CMD [/bin/bash,/run.sh]"
  {
    TwoArgCommand("/bin/bash", "/run.sh");
    assert ExposeSection(Some("8080 8888")) == "EXPOSE 8080 8888\n\n";
    assert CmdLine(Exec(["/bin/bash", "/run.sh"])) == "CMD [/bin/bash,/run.sh]";
  }

  lemma ShownWithoutPorts()
    ensures BuildDockerfile(None, Exec(["/bin/bash", "/run.sh"])) ==
            "FROM tutum/buildstep\n\n" + "CMD [/bin/bash,/run.sh]"
  {
    TwoArgCommand("/bin/bash", "/run.sh");
    assert CmdLine(Exec(["/bin/bash", "/run.sh"])) == "CMD [/bin/bash,/run.sh]";
  }

  lemma ShownStringCommand()
    ensures BuildDockerfile(None, Shell("/bin/bash /run.sh")) ==
            "FROM tutum/buildstep\n\n" + "CMD /bin/bash /run.sh"
  {
  }
}
