/// The command registry of conans/client/command.py (`Command._commands`):
/// the bound methods of the command object, filtered into a table from
/// public command name to handler.
module Registry {
  import opened Common

  /** A bound method of the command object: its name and its docstring. */
  datatype Member = Member(name: string, doc: Option<string>)

  /** Whether a method is offered as a command: public, documented, not hidden. */
  predicate Exposed(m: Member) {
    && !StartsWith(m.name, "_")
    && m.doc.Some? && m.doc.value != ""
    && !StartsWith(m.doc.value, "HIDDEN")
  }

  /** The name a method is exposed under: `export_pkg` becomes `export-pkg`. */
  function PublicName(name: string): string {
    if name == "export_pkg" then "export-pkg" else name
  }

  /** The table the loop builds from the members seen so far (a later entry overwrites). */
  function Registered(ms: seq<Member>): (r: map<string, Member>)
    ensures ms != [] && Exposed(ms[|ms| - 1]) ==>
              PublicName(ms[|ms| - 1].name) in r && r[PublicName(ms[|ms| - 1].name)] == ms[|ms| - 1]
    decreases |ms|
  {
    if ms == [] then map[]
    else
      var m := ms[|ms| - 1];
      var before := Registered(ms[..|ms| - 1]);
      if Exposed(m) then before[PublicName(m.name) := m] else before
  }

  /** `Command._commands`: one pass over the members, filling the table. */
  method Commands(members: seq<Member>) returns (result: map<string, Member>)
    ensures result == Registered(members)
  {
    result := map[];
    for i := 0 to |members|
      invariant result == Registered(members[..i])
    {
      assert members[..i + 1][..i] == members[..i];
      var m := members[i];
      var name := m.name;
      if !StartsWith(name, "_") {
        if name == "export_pkg" {
          name := "export-pkg";
        }
        if m.doc.Some? && m.doc.value != "" && !StartsWith(m.doc.value, "HIDDEN") {
          result := result[name := m];
        }
      }
    }
    assert members[..|members|] == members;
  }

  /** A name is registered iff some exposed member is published under it. */
  lemma {:induction false} RegisteredNames(ms: seq<Member>, name: string)
    ensures name in Registered(ms) <==>
              exists i :: 0 <= i < |ms| && Exposed(ms[i]) && PublicName(ms[i].name) == name
    decreases |ms|
  {
    if ms != [] {
      var init := ms[..|ms| - 1];
      RegisteredNames(init, name);
      if name in Registered(init) {
        var i :| 0 <= i < |init| && Exposed(init[i]) && PublicName(init[i].name) == name;
        assert ms[i] == init[i];
      }
      if exists i :: 0 <= i < |ms| && Exposed(ms[i]) && PublicName(ms[i].name) == name {
        var i :| 0 <= i < |ms| && Exposed(ms[i]) && PublicName(ms[i].name) == name;
        if i < |ms| - 1 {
          assert init[i] == ms[i];
        }
      }
    }
  }

  /** A registered name is bound to the last exposed member published under it. */
  lemma {:induction false} RegisteredHandler(ms: seq<Member>, i: nat)
    requires i < |ms| && Exposed(ms[i])
    requires forall j :: i < j < |ms| && Exposed(ms[j]) ==> PublicName(ms[j].name) != PublicName(ms[i].name)
    ensures PublicName(ms[i].name) in Registered(ms)
    ensures Registered(ms)[PublicName(ms[i].name)] == ms[i]
    decreases |ms|
  {
    if i < |ms| - 1 {
      var init := ms[..|ms| - 1];
      RegisteredHandler(init, i);
    }
  }

  /**
   * Two distinct method names share a public name only for `export_pkg`
   * and `export-pkg`; since a Python method name cannot contain `-`, the
   * table never loses a command to a collision.
   */
  lemma PublicNameInjective(a: string, b: string)
    requires PublicName(a) == PublicName(b) && a != b
    ensures {a, b} == {"export_pkg", "export-pkg"}
  {
  }

  /** Every command the table offers comes from an exposed member. */
  lemma {:induction false} RegisteredExposed(ms: seq<Member>)
    ensures forall name :: name in Registered(ms) ==>
              Exposed(Registered(ms)[name]) && PublicName(Registered(ms)[name].name) == name
    decreases |ms|
  {
    if ms != [] {
      RegisteredExposed(ms[..|ms| - 1]);
    }
  }

  /**
   * The bound methods of the `Command` class, in `inspect.getmembers` (name)
   * order, four at a time. Each carries the opening words of its docstring
   * without the source's line indentation, which `Exposed` does not look at.
   */
  const PrivateMembers: seq<Member> := [
    Member("__init__", None),
    Member("_commands", Some(" Returns a list")),
    Member("_print_similar", Some(" Looks for similar")),
    Member("_warn_python_version", None)
  ]

  const FirstCommands: seq<Member> := [
    Member("build", Some("\nCalls your local")),
    Member("create", Some("\nBuilds a binary")),
    Member("download", Some("\nDownloads recipe")),
    Member("editable", Some("\nManages editable"))
  ]

  const MiddleCommands: seq<Member> := [
    Member("get", Some("\nGets a file")),
    Member("imports", Some("\nCalls your local")),
    Member("inspect", Some("\nDisplays conanfile")),
    Member("remove", Some("\nRemoves packages"))
  ]

  const LastMembers: seq<Member> := [
    Member("run", Some("HIDDEN: entry point")),
    Member("source", Some("\nCalls your local")),
    Member("test", Some("\nTests a package")),
    Member("upload", Some("\nUploads a recipe"))
  ]

  const CommandMembers: seq<Member> := PrivateMembers + FirstCommands + MiddleCommands + LastMembers

  /** One more member: the table grows by it iff it is exposed. */
  lemma RegisteredStep(ms: seq<Member>, m: Member)
    ensures Registered(ms + [m]).Keys ==
              Registered(ms).Keys + (if Exposed(m) then {PublicName(m.name)} else {})
  {
    assert (ms + [m])[..|ms|] == ms;
  }

  /** The names a concatenation of member lists offers are those of either part. */
  lemma {:induction false} RegisteredAppend(a: seq<Member>, b: seq<Member>)
    ensures Registered(a + b).Keys == Registered(a).Keys + Registered(b).Keys
    decreases |b|
  {
    if b == [] {
      assert a + b == a;
    } else {
      var init := b[..|b| - 1];
      var last := b[|b| - 1];
      assert a + b == (a + init) + [last];
      assert b == init + [last];
      RegisteredAppend(a, init);
      RegisteredStep(a + init, last);
      RegisteredStep(init, last);
    }
  }

  /** Four members, each of which is exposed or not. */
  lemma RegisteredFour(ms: seq<Member>)
    requires |ms| == 4
    ensures Registered(ms).Keys ==
              (if Exposed(ms[0]) then {PublicName(ms[0].name)} else {})
              + (if Exposed(ms[1]) then {PublicName(ms[1].name)} else {})
              + (if Exposed(ms[2]) then {PublicName(ms[2].name)} else {})
              + (if Exposed(ms[3]) then {PublicName(ms[3].name)} else {})
  {
    assert ms[..1] == [] + [ms[0]];
    RegisteredStep([], ms[0]);
    assert ms[..2] == ms[..1] + [ms[1]];
    RegisteredStep(ms[..1], ms[1]);
    assert ms[..3] == ms[..2] + [ms[2]];
    RegisteredStep(ms[..2], ms[2]);
    assert ms == ms[..3] + [ms[3]];
    RegisteredStep(ms[..3], ms[3]);
  }

  /** The commands the client offers: `run` is hidden and the underscore helpers are private. */
  lemma CommandTable()
    ensures Registered(CommandMembers).Keys ==
              {"build", "create", "download", "editable", "get", "imports",
               "inspect", "remove", "source", "test", "upload"}
  {
    var a, b, c, d := PrivateMembers, FirstCommands, MiddleCommands, LastMembers;
    TablePrivate();
    TableFirst();
    TableMiddle();
    TableLast();
    RegisteredAppend(a, b);
    RegisteredAppend(a + b, c);
    RegisteredAppend(a + b + c, d);
    assert CommandMembers == a + b + c + d;
  }

  /** `run` itself is not a command. */
  lemma RunIsHidden()
    ensures "run" !in Registered(CommandMembers)
  {
    CommandTable();
    assert "run" != "get" by {
      assert "run"[0] != "get"[0];
    }
  }

  lemma TablePrivate()
    ensures Registered(PrivateMembers).Keys == {}
  {
    var ms := PrivateMembers;
    assert ms[0].name[..1] == "_";
    assert ms[1].name[..1] == "_";
    assert ms[2].name[..1] == "_";
    assert ms[3].name[..1] == "_";
    RegisteredFour(ms);
  }

  lemma TableFirst()
    ensures Registered(FirstCommands).Keys == {"build", "create", "download", "editable"}
  {
    var ms := FirstCommands;
    ShownAsCommand(ms[0]);
    ShownAsCommand(ms[1]);
    ShownAsCommand(ms[2]);
    ShownAsCommand(ms[3]);
    RegisteredFour(ms);
  }

  lemma TableMiddle()
    ensures Registered(MiddleCommands).Keys == {"get", "imports", "inspect", "remove"}
  {
    var ms := MiddleCommands;
    ShownAsCommand(ms[0]);
    ShownAsCommand(ms[1]);
    ShownAsCommand(ms[2]);
    ShownAsCommand(ms[3]);
    RegisteredFour(ms);
  }

  lemma TableLast()
    ensures Registered(LastMembers).Keys == {"source", "test", "upload"}
  {
    var ms := LastMembers;
    assert ms[0].doc.value[..6] == "HIDDEN";
    ShownAsCommand(ms[1]);
    ShownAsCommand(ms[2]);
    ShownAsCommand(ms[3]);
    RegisteredFour(ms);
  }

  /** A public name and a non-empty docstring that starts with something other than `H`. */
  lemma ShownAsCommand(m: Member)
    requires m.name != [] && m.name[0] != '_'
    requires m.doc.Some? && m.doc.value != [] && m.doc.value[0] != 'H'
    ensures Exposed(m)
  {
  }
}
