/// The Meson build helper of conan/tools/meson/meson.py: it assembles
/// `meson ...` command lines from an option list and positional arguments,
/// logs them and hands them to the recipe's `run`. The recipe (its folders,
/// its `run` and its output) is modelled by the fields of `Meson`; what the
/// filesystem holds and the toolchain's file names are inputs (`Host`).
module MesonTool {
  import opened Common

  /** The value of one option: `True`, `False`, or any other value, by its `str()`. */
  datatype OptionValue = On | Off | Text(text: string)

  datatype MesonOption = MesonOption(key: string, value: OptionValue)

  /** `cmd_info_name`: `False` (no log line), `None` (unnamed) or a name. */
  datatype InfoName = NoInfo | Unnamed | InfoNamed(name: string)

  /** The words one option contributes: `k` for `True`, nothing for `False`, `k v` otherwise. */
  function OptionWords(o: MesonOption): seq<string> {
    match o.value
    case On => [o.key]
    case Off => []
    case Text(t) => [o.key, t]
  }

  /** The words of a list of options, in list order. */
  function OptionsWords(opts: seq<MesonOption>): seq<string>
    decreases |opts|
  {
    if opts == [] then [] else OptionsWords(opts[..|opts| - 1]) + OptionWords(opts[|opts| - 1])
  }

  /** Each word preceded by one space: `" w1 w2 ..."`. */
  function Spaced(words: seq<string>): string
    decreases |words|
  {
    if words == [] then "" else Spaced(words[..|words| - 1]) + " " + words[|words| - 1]
  }

  /** The words after `meson`: the sub-command, then every option, then the positional arguments. */
  function CommandWords(cmd: Option<string>, opts: seq<MesonOption>, args: seq<string>): seq<string> {
    (if cmd.Some? then [cmd.value] else []) + OptionsWords(opts) + args
  }

  /** The command line `Meson.run` builds. */
  function CommandLine(cmd: Option<string>, opts: seq<MesonOption>, args: seq<string>): string {
    "meson" + Spaced(CommandWords(cmd, opts, args))
  }

  lemma {:induction false} SpacedAppend(a: seq<string>, b: seq<string>)
    ensures Spaced(a + b) == Spaced(a) + Spaced(b)
    decreases |b|
  {
    if b == [] {
      assert a + b == a;
    } else {
      var last := b[|b| - 1];
      assert (a + b)[..|a + b| - 1] == a + b[..|b| - 1];
      SpacedAppend(a, b[..|b| - 1]);
    }
  }

  lemma {:induction false} OptionsWordsAppend(a: seq<MesonOption>, b: seq<MesonOption>)
    ensures OptionsWords(a + b) == OptionsWords(a) + OptionsWords(b)
    decreases |b|
  {
    if b == [] {
      assert a + b == a;
    } else {
      assert (a + b)[..|a + b| - 1] == a + b[..|b| - 1];
      OptionsWordsAppend(a, b[..|b| - 1]);
    }
  }

  /**
   * The command line is `meson`, then ` <cmd>` when a sub-command is
   * given, then each option in list order, then the positional arguments,
   * all after the options.
   */
  lemma CommandLineParts(cmd: Option<string>, opts: seq<MesonOption>, args: seq<string>)
    ensures CommandLine(cmd, opts, args) ==
              "meson" + (if cmd.Some? then " " + cmd.value else "")
              + Spaced(OptionsWords(opts)) + Spaced(args)
  {
    var head := if cmd.Some? then [cmd.value] else [];
    var words := OptionsWords(opts);
    SpacedAppend(head + words, args);
    SpacedAppend(head, words);
    SpacedOptional(if cmd.Some? then cmd.value else "", cmd.Some?);
    JoinFour("meson", Spaced(head), Spaced(words), Spaced(args));
  }

  /** Regrouping four pieces of text. */
  lemma JoinFour(a: string, b: string, c: string, d: string)
    ensures a + (b + c + d) == a + b + c + d
  {
  }

  /** Every command line starts with `meson`, followed by ` <cmd>` when a sub-command is given. */
  lemma CommandLineHead(cmd: Option<string>, opts: seq<MesonOption>, args: seq<string>)
    ensures StartsWith(CommandLine(cmd, opts, args), "meson")
    ensures cmd.Some? ==> StartsWith(CommandLine(cmd, opts, args), "meson " + cmd.value)
  {
    var x := if cmd.Some? then " " + cmd.value else "";
    var a, b := Spaced(OptionsWords(opts)), Spaced(args);
    CommandLineParts(cmd, opts, args);
    JoinFour("meson", x, a, b);
    PrefixStarts("meson", x + a + b);
    if cmd.Some? {
      assert "meson" + x + a + b == ("meson " + cmd.value) + (a + b) by {
        JoinFour("meson", x, a, b);
        MesonSpace(cmd.value, a + b);
        Associative(x, a, b);
      }
      PrefixStarts("meson " + cmd.value, a + b);
    }
  }

  /** Regrouping step: a text starts with its own prefix. */
  lemma PrefixStarts(p: string, t: string)
    ensures StartsWith(p + t, p)
  {
    assert (p + t)[..|p|] == p;
  }

  /** Regrouping step: `meson` followed by a space and a word. */
  lemma MesonSpace(v: string, t: string)
    ensures "meson" + (" " + v + t) == "meson " + v + t
  {
  }

  /** An option whose value is `False` leaves no trace in the command line. */
  lemma OffOptionDropped(cmd: Option<string>, before: seq<MesonOption>, key: string,
                         after: seq<MesonOption>, args: seq<string>)
    ensures CommandLine(cmd, before + [MesonOption(key, Off)] + after, args)
            == CommandLine(cmd, before + after, args)
  {
    var off := [MesonOption(key, Off)];
    OptionsWordsAppend(before + off, after);
    OptionsWordsAppend(before, off);
    OptionsWordsAppend(before, after);
    assert off[..0] == [];
    assert OptionsWords(off) == [];
    assert OptionsWords(before + off) == OptionsWords(before);
  }

  /** One more word: its text, after one space. */
  lemma SpacedSnoc(words: seq<string>, w: string)
    ensures Spaced(words + [w]) == Spaced(words) + " " + w
  {
    assert (words + [w])[..|words|] == words;
  }

  /** One more option: the text it adds to the line. */
  lemma SpacedOption(words: seq<string>, o: MesonOption)
    ensures Spaced(words + OptionWords(o)) ==
              match o.value
              case On => Spaced(words) + " " + o.key
              case Off => Spaced(words)
              case Text(t) => Spaced(words) + " " + o.key + " " + t
  {
    match o.value {
      case On =>
        SpacedSnoc(words, o.key);
      case Off =>
        assert words + [] == words;
      case Text(t) =>
        SpacedSnoc(words, o.key);
        SpacedSnoc(words + [o.key], t);
        assert words + [o.key] + [t] == words + [o.key, t];
    }
  }

  lemma OptionsWordsPrefix(opts: seq<MesonOption>, i: nat)
    requires i < |opts|
    ensures OptionsWords(opts[..i + 1]) == OptionsWords(opts[..i]) + OptionWords(opts[i])
  {
    assert opts[..i + 1][..i] == opts[..i];
  }

  /** One iteration of the option loop of `Meson.run`: the words so far grow by the option's words. */
  lemma StepWords(head: seq<string>, options: seq<MesonOption>, i: nat, words: seq<string>)
    requires i < |options|
    requires words == head + OptionsWords(options[..i])
    ensures words + OptionWords(options[i]) == head + OptionsWords(options[..i + 1])
  {
    OptionsWordsPrefix(options, i);
    Associative(head, OptionsWords(options[..i]), OptionWords(options[i]));
  }

  /** One iteration of the option loop of `Meson.run`: the text it appends spells the option's words. */
  lemma StepLine(words: seq<string>, o: MesonOption, before: string, added: string)
    requires before == "meson" + Spaced(words)
    requires added == match o.value
                      case On => " " + o.key
                      case Off => ""
                      case Text(t) => " " + o.key + " " + t
    ensures before + added == "meson" + Spaced(words + OptionWords(o))
  {
    SpacedOption(words, o);
    Associative("meson", Spaced(words), added);
    match o.value {
      case On =>
      case Off =>
        assert before + added == before;
      case Text(t) =>
        Associative(Spaced(words) + " " + o.key, " ", t);
        Associative(Spaced(words), " ", o.key);
        Associative(Spaced(words), " " + o.key, " " + t);
    }
  }

  /** Regrouping step: concatenation is associative. */
  lemma Associative<T>(a: seq<T>, b: seq<T>, c: seq<T>)
    ensures a + b + c == a + (b + c)
  {
  }

  /** The command line `Meson.run` assembles with `+=`: the head, the option loop, the argument loop. */
  method BuildCommandLine(cmd: Option<string>, args: seq<string>, options: seq<MesonOption>)
    returns (line: string)
    ensures line == CommandLine(cmd, options, args)
  {
    ghost var head: seq<string> := if cmd.Some? then [cmd.value] else [];
    line := "meson";
    if cmd.Some? {
      assert line + " " + cmd.value == "meson" + Spaced(head) by {
        SpacedSnoc([], cmd.value);
      }
      line := line + " " + cmd.value;
    }
    line := AppendOptions(line, head, options);
    line := AppendArguments(line, head + OptionsWords(options), args);
  }

  /** The option loop of `Meson.run`: each option's text, in list order. */
  method AppendOptions(start: string, ghost before: seq<string>, options: seq<MesonOption>)
    returns (line: string)
    requires start == "meson" + Spaced(before)
    ensures line == "meson" + Spaced(before + OptionsWords(options))
  {
    ghost var words := before;
    line := start;
    for i := 0 to |options|
      invariant words == before + OptionsWords(options[..i])
      invariant line == "meson" + Spaced(words)
    {
      var k, v := options[i].key, options[i].value;
      var added := "";
      if v == On {
        added := " " + k;
      } else if v != Off {
        added := " " + k + " " + v.text;
      }
      assert words + OptionWords(options[i]) == before + OptionsWords(options[..i + 1]) by {
        StepWords(before, options, i, words);
      }
      assert line + added == "meson" + Spaced(words + OptionWords(options[i])) by {
        StepLine(words, options[i], line, added);
      }
      line := line + added;
      words := words + OptionWords(options[i]);
    }
    assert options[..|options|] == options;
  }

  /** The argument loop of `Meson.run`: one space and each argument, in order. */
  method AppendArguments(start: string, ghost before: seq<string>, args: seq<string>)
    returns (line: string)
    requires start == "meson" + Spaced(before)
    ensures line == "meson" + Spaced(before + args)
  {
    ghost var words := before;
    line := start;
    for j := 0 to |args|
      invariant words == before + args[..j]
      invariant line == "meson" + Spaced(words)
    {
      assert args[..j + 1] == args[..j] + [args[j]];
      assert line + " " + args[j] == "meson" + Spaced(words + [args[j]]) by {
        SpacedSnoc(words, args[j]);
      }
      line := line + " " + args[j];
      words := words + [args[j]];
    }
    assert args[..|args|] == args;
  }

  /** The log line `run` writes for a command, if any. */
  function InfoLines(name: InfoName, line: string): seq<string> {
    match name
    case NoInfo => []
    case Unnamed => ["Meson cmd: " + line]
    case InfoNamed(n) => ["Meson " + n + " cmd: " + line]
  }

  /** `os.path.join(a, b)` for two POSIX path components. */
  function PathJoin(a: string, b: string): string {
    if StartsWith(b, "/") then b
    else if a == [] || a[|a| - 1] == '/' then a + b
    else a + "/" + b
  }

  /** `'"{}"'.format(path)`. */
  function Quoted(path: string): string {
    "\"" + path + "\""
  }

  /** The recipe attributes the helper reads. */
  datatype ConanFile = ConanFile(buildFolder: string, sourceFolder: string, generatorsFolder: string,
                                 packageFolder: Option<string>, buildJobs: int)

  /** What the filesystem holds, and the file names the Meson toolchain writes. */
  datatype Host = Host(existing: set<string>, crossFilename: string, nativeFilename: string)

  /** Whether `run_setup` asks Meson to reconfigure: asked for (the default) and `meson-private` exists. */
  predicate Reconfigures(cf: ConanFile, reconfigure: Option<bool>, host: Host) {
    (reconfigure.None? || reconfigure.value) && PathJoin(cf.buildFolder, "meson-private") in host.existing
  }

  /** The options `run_setup` runs with: `--reconfigure` first when it reconfigures. */
  function SetupOptions(given: seq<MesonOption>, reconfigures: bool): seq<MesonOption> {
    if reconfigures then [MesonOption("--reconfigure", On)] + given else given
  }

  /** The options `configure` adds: the cross file if it exists, else the native file, then the prefix. */
  function ToolchainOptions(cf: ConanFile, host: Host): seq<MesonOption> {
    var cross := PathJoin(cf.generatorsFolder, host.crossFilename);
    var native := PathJoin(cf.generatorsFolder, host.nativeFilename);
    (if cross in host.existing then [MesonOption("--cross-file", Text(Quoted(cross)))]
     else [MesonOption("--native-file", Text(Quoted(native)))])
    + (if Given(cf.packageFolder) then [MesonOption("-D", Text("prefix=" + Quoted(cf.packageFolder.value)))] else [])
  }

  /** `configure` adds exactly one machine file, and the prefix iff there is a package folder. */
  lemma ToolchainOptionsShape(cf: ConanFile, host: Host)
    ensures var t := ToolchainOptions(cf, host);
      |t| == (if Given(cf.packageFolder) then 2 else 1)
      && (t[0].key == "--cross-file" <==> PathJoin(cf.generatorsFolder, host.crossFilename) in host.existing)
      && (t[0].key == "--native-file" <==> PathJoin(cf.generatorsFolder, host.crossFilename) !in host.existing)
      && (Given(cf.packageFolder) ==> t[1] == MesonOption("-D", Text("prefix=\"" + cf.packageFolder.value + "\"")))
  {
    if Given(cf.packageFolder) {
      var v := cf.packageFolder.value;
      assert "prefix=" + Quoted(v) == "prefix=\"" + v + "\"";
    }
  }

  /** `meson compile -C "<build folder>"`, then ` -j<n>` iff `n` is non-zero, then ` <target>` iff given. */
  function CompileLine(buildFolder: string, jobs: int, target: Option<string>): string {
    "meson compile -C " + Quoted(buildFolder)
    + (if jobs != 0 then " -j" + IntString(jobs) else "")
    + (if Given(target) then " " + target.value else "")
  }

  /** One word: its text after one space. */
  lemma SpacedSingle(w: string)
    ensures Spaced([w]) == " " + w
  {
    assert [w][..0] == [];
  }

  /** The fixed words of the compile line, as `run` would spell them. */
  lemma CompileHead(q: string)
    ensures Spaced(["compile", "-C", q]) == " compile -C " + q
  {
    SpacedSingle("compile");
    SpacedSnoc(["compile"], "-C");
    assert ["compile"] + ["-C"] == ["compile", "-C"];
    SpacedSnoc(["compile", "-C"], q);
    assert ["compile", "-C"] + [q] == ["compile", "-C", q];
    assert " compile" + " " + "-C" + " " + q == " compile -C " + q;
  }

  /** An optional word: one space and the word, or nothing. */
  lemma SpacedOptional(w: string, present: bool)
    ensures Spaced(if present then [w] else []) == (if present then " " + w else "")
  {
    if present {
      SpacedSingle(w);
    }
  }

  /** Three runs of words: the text of each, in order. */
  lemma SpacedThree(a: seq<string>, b: seq<string>, c: seq<string>)
    ensures Spaced(a + b + c) == Spaced(a) + Spaced(b) + Spaced(c)
  {
    SpacedAppend(a + b, c);
    SpacedAppend(a, b);
  }

  /** The text of three runs of words, from the text of each. */
  lemma SpacedPieces(a: seq<string>, b: seq<string>, c: seq<string>, ta: string, tb: string, tc: string)
    requires Spaced(a) == ta && Spaced(b) == tb && Spaced(c) == tc
    ensures Spaced(a + b + c) == ta + tb + tc
  {
    SpacedThree(a, b, c);
  }

  /** A command without options: `meson`, the sub-command, then the arguments. */
  lemma CommandWithoutOptions(cmd: string, args: seq<string>)
    ensures CommandLine(Some(cmd), [], args) == "meson" + Spaced([cmd] + args)
  {
    assert OptionsWords([]) == [];
    assert CommandWords(Some(cmd), [], args) == [cmd] + args;
  }

  /** The compile line, as `CompileLine` spells it, from its fixed head and the optional parts. */
  lemma CompileLineText(q: string, j: string, t: string)
    ensures "meson" + (" compile -C " + q + j + t) == "meson compile -C " + q + j + t
  {
  }

  /**
   * `build` writes the command line `run` would write for the sub-command
   * `compile` with no options and the arguments `-C "<bf>" [-j<n>] [<target>]`.
   */
  lemma CompileLineWords(buildFolder: string, jobs: int, target: Option<string>)
    ensures CompileLine(buildFolder, jobs, target) ==
              CommandLine(Some("compile"), [],
                          ["-C", Quoted(buildFolder)]
                          + (if jobs != 0 then ["-j" + IntString(jobs)] else [])
                          + (if Given(target) then [target.value] else []))
  {
    CompileWords(Quoted(buildFolder), "-j" + IntString(jobs), jobs != 0,
                 if target.Some? then target.value else "", Given(target));
  }

  /** `CompileLineWords` for any texts of the build folder, the jobs word and the target. */
  lemma CompileWords(q: string, jobsWord: string, hasJobs: bool, targetWord: string, hasTarget: bool)
    ensures "meson compile -C " + q + (if hasJobs then " " + jobsWord else "") + (if hasTarget then " " + targetWord else "")
            == CommandLine(Some("compile"), [],
                           ["-C", q] + (if hasJobs then [jobsWord] else []) + (if hasTarget then [targetWord] else []))
  {
    var jobsWords := if hasJobs then [jobsWord] else [];
    var targetWords := if hasTarget then [targetWord] else [];
    var j := if hasJobs then " " + jobsWord else "";
    var t := if hasTarget then " " + targetWord else "";
    assert CommandLine(Some("compile"), [], ["-C", q] + jobsWords + targetWords)
        == "meson" + Spaced(["compile", "-C", q] + jobsWords + targetWords) by {
      CommandWithoutOptions("compile", ["-C", q] + jobsWords + targetWords);
      CompileArgs(q, jobsWords, targetWords);
    }
    CompileHead(q);
    SpacedOptional(jobsWord, hasJobs);
    SpacedOptional(targetWord, hasTarget);
    SpacedPieces(["compile", "-C", q], jobsWords, targetWords, " compile -C " + q, j, t);
    CompileLineText(q, j, t);
  }

  /** The sub-command in front of the compile arguments. */
  lemma CompileArgs(q: string, jobsWords: seq<string>, targetWords: seq<string>)
    ensures ["compile"] + (["-C", q] + jobsWords + targetWords) == ["compile", "-C", q] + jobsWords + targetWords
  {
  }

  /** A list the caller owns and the helper may grow in place. */
  class OptionList {
    var items: seq<MesonOption>

    constructor (items: seq<MesonOption>)
      ensures this.items == items
    {
      this.items := items;
    }
  }

  /** `Meson(conanfile)`: the recipe's folders, and what was logged and run so far. */
  class Meson {
    const conanfile: ConanFile
    var infoLog: seq<string>      // lines written through `conanfile.output.info`
    var commandsRun: seq<string>  // commands handed to `conanfile.run`, in order

    constructor (conanfile: ConanFile)
      ensures this.conanfile == conanfile && infoLog == [] && commandsRun == []
    {
      this.conanfile := conanfile;
      infoLog := [];
      commandsRun := [];
    }

    /** `Meson.run`: build the command line, log it unless told not to, run it. */
    method Run(cmd: Option<string>, args: seq<string>, options: seq<MesonOption>, infoName: InfoName)
      modifies this
      ensures commandsRun == old(commandsRun) + [CommandLine(cmd, options, args)]
      ensures infoLog == old(infoLog) + InfoLines(infoName, CommandLine(cmd, options, args))
    {
      var line := BuildCommandLine(cmd, args, options);
      match infoName {
        case NoInfo =>
        case Unnamed =>
          infoLog := infoLog + ["Meson cmd: " + line];
        case InfoNamed(n) =>
          infoLog := infoLog + ["Meson " + n + " cmd: " + line];
      }
      commandsRun := commandsRun + [line];
    }

    /**
     * `Meson.run_setup`: grows the caller's list (if any) by a leading
     * `--reconfigure`, then runs `meson setup "<build>" "<source>" <args>`,
     * logged as "setup" unless named otherwise.
     */
    method RunSetup(args: seq<string>, options: OptionList?, infoName: InfoName,
                    reconfigure: Option<bool>, host: Host)
      modifies this, options
      ensures options != null ==>
                options.items == SetupOptions(old(options.items), Reconfigures(conanfile, reconfigure, host))
      ensures var opts := SetupOptions(if options == null then [] else old(options.items),
                                       Reconfigures(conanfile, reconfigure, host));
              var line := CommandLine(Some("setup"), opts,
                                      [Quoted(conanfile.buildFolder), Quoted(conanfile.sourceFolder)] + args);
              && commandsRun == old(commandsRun) + [line]
              && infoLog == old(infoLog) + InfoLines(if infoName == Unnamed then InfoNamed("setup") else infoName, line)
    {
      var list := options;
      if list == null {
        list := new OptionList([]);
      }
      var name := if infoName == Unnamed then InfoNamed("setup") else infoName;
      var doReconfigure := reconfigure.None? || reconfigure.value;
      if doReconfigure && PathJoin(conanfile.buildFolder, "meson-private") in host.existing {
        list.items := [MesonOption("--reconfigure", On)] + list.items;
      }
      Run(Some("setup"), [Quoted(conanfile.buildFolder), Quoted(conanfile.sourceFolder)] + args, list.items, name);
    }

    /** `Meson.run_configure`: `meson configure "<build>" <args>`, logged as "configure" by default. */
    method RunConfigure(args: seq<string>, options: seq<MesonOption>, infoName: InfoName)
      modifies this
      ensures var line := CommandLine(Some("configure"), options, [Quoted(conanfile.buildFolder)] + args);
              && commandsRun == old(commandsRun) + [line]
              && infoLog == old(infoLog)
                            + InfoLines(if infoName == Unnamed then InfoNamed("configure") else infoName, line)
    {
      var name := if infoName == Unnamed then InfoNamed("configure") else infoName;
      Run(Some("configure"), [Quoted(conanfile.buildFolder)] + args, options, name);
    }

    /**
     * `Meson.configure`: appends the machine file and prefix options to the
     * caller's list (if any), then sets up, logged as "configure" by default.
     */
    method Configure(options: OptionList?, infoName: InfoName, reconfigure: Option<bool>, host: Host)
      modifies this, options
      ensures var opts := SetupOptions((if options == null then [] else old(options.items))
                                       + ToolchainOptions(conanfile, host),
                                       Reconfigures(conanfile, reconfigure, host));
              var line := CommandLine(Some("setup"), opts,
                                      [Quoted(conanfile.buildFolder), Quoted(conanfile.sourceFolder)]);
              && (options != null ==> options.items == opts)
              && commandsRun == old(commandsRun) + [line]
              && infoLog == old(infoLog)
                            + InfoLines(if infoName == Unnamed then InfoNamed("configure") else infoName, line)
    {
      var list := options;
      if list == null {
        list := new OptionList([]);
      }
      var name := if infoName == Unnamed then InfoNamed("configure") else infoName;
      var cross := PathJoin(conanfile.generatorsFolder, host.crossFilename);
      var native := PathJoin(conanfile.generatorsFolder, host.nativeFilename);
      if cross in host.existing {
        list.items := list.items + [MesonOption("--cross-file", Text(Quoted(cross)))];
      } else {
        list.items := list.items + [MesonOption("--native-file", Text(Quoted(native)))];
      }
      if Given(conanfile.packageFolder) {
        list.items := list.items + [MesonOption("-D", Text("prefix=" + Quoted(conanfile.packageFolder.value)))];
      }
      assert list.items == (if options == null then [] else old(options.items)) + ToolchainOptions(conanfile, host);
      RunSetup([], list, name, reconfigure, host);
      assert [Quoted(conanfile.buildFolder), Quoted(conanfile.sourceFolder)] + []
          == [Quoted(conanfile.buildFolder), Quoted(conanfile.sourceFolder)];
    }

    /** `Meson.build`: logs and runs the compile line. */
    method Build(target: Option<string>)
      modifies this
      ensures var line := CompileLine(conanfile.buildFolder, conanfile.buildJobs, target);
              commandsRun == old(commandsRun) + [line] && infoLog == old(infoLog) + ["Meson build cmd: " + line]
    {
      var line := "meson compile -C " + Quoted(conanfile.buildFolder);
      ghost var head := line;
      var jobs := conanfile.buildJobs;
      if jobs != 0 {
        line := line + (" -j" + IntString(jobs));
      } else {
        assert line == head + "";
      }
      ghost var withJobs := line;
      if target.Some? && target.value != "" {
        line := line + (" " + target.value);
      } else {
        assert line == withJobs + "";
      }
      infoLog := infoLog + ["Meson build cmd: " + line];
      commandsRun := commandsRun + [line];
    }

    /** `Meson.install`: configures again (to set the package folder as prefix), then installs. */
    method Install(host: Host)
      modifies this
      ensures var setup := CommandLine(Some("setup"),
                                       SetupOptions(ToolchainOptions(conanfile, host), Reconfigures(conanfile, None, host)),
                                       [Quoted(conanfile.buildFolder), Quoted(conanfile.sourceFolder)]);
              && commandsRun == old(commandsRun) + [setup, "meson install -C " + Quoted(conanfile.buildFolder)]
              && infoLog == old(infoLog) + InfoLines(InfoNamed("configure"), setup)
    {
      ghost var setup := CommandLine(Some("setup"),
                                     SetupOptions(ToolchainOptions(conanfile, host), Reconfigures(conanfile, None, host)),
                                     [Quoted(conanfile.buildFolder), Quoted(conanfile.sourceFolder)]);
      ghost var before := commandsRun;
      var install := "meson install -C " + Quoted(conanfile.buildFolder);
      assert [] + ToolchainOptions(conanfile, host) == ToolchainOptions(conanfile, host);
      Configure(null, Unnamed, None, host);
      assert commandsRun == before + [setup];
      commandsRun := commandsRun + [install];
      assert before + [setup] + [install] == before + [setup, install];
    }

    /** `Meson.test`: runs the test suite verbosely. */
    method Test()
      modifies this
      ensures commandsRun == old(commandsRun) + ["meson test -v -C " + Quoted(conanfile.buildFolder)]
      ensures infoLog == old(infoLog)
    {
      commandsRun := commandsRun + ["meson test -v -C " + Quoted(conanfile.buildFolder)];
    }
  }
}
