/*
 * Project creation (gearshift/command/quickstart.py): deriving the package
 * name from the project name, resolving the ORM switches, the identity
 * prompt, and the template arguments handed to paster; and the ORM and
 * identity resolution of `update`.
 *
 * Standard input is a sequence of lines the prompts consume. Creating the
 * distribution, pkg_resources and the file system are not modelled.
 */
module Quickstart {
  import opened Common

  predicate IsLowerLetter(c: char) { 'a' <= c <= 'z' }

  /** A character `[a-z0-9_]` keeps. */
  predicate ValidChar(c: char) { IsLowerLetter(c) || IsDigit(c) || c == '_' }

  /** `beginning_letter.sub("", s)`: the leading run of characters outside a-z removed. */
  function DropLeadingNonLetters(s: Str): (r: Str)
    ensures |r| <= |s|
    ensures r == [] || IsLowerLetter(r[0])
    ensures forall i :: 0 <= i < |s| - |r| ==> !IsLowerLetter(s[i])
  {
    if s == [] || IsLowerLetter(s[0]) then s else DropLeadingNonLetters(s[1..])
  }

  /** What is left after dropping is the rest of the string, unchanged. */
  lemma {:induction false} DropLeavesSuffix(s: Str)
    ensures var r := DropLeadingNonLetters(s); r == s[|s| - |r|..]
    decreases |s|
  {
    if s != [] && !IsLowerLetter(s[0]) {
      DropLeavesSuffix(s[1..]);
      assert s[1..][|s| - 1 - |DropLeadingNonLetters(s[1..])|..] == s[|s| - |DropLeadingNonLetters(s)|..];
    }
  }

  /** `valid_only.sub("", s)`: every character outside [a-z0-9_] removed, the others kept in order. */
  function KeepValid(s: Str): (r: Str)
    ensures |r| <= |s|
    ensures forall i :: 0 <= i < |r| ==> ValidChar(r[i])
    ensures s != [] && ValidChar(s[0]) ==> r != [] && r[0] == s[0]
    ensures (forall i :: 0 <= i < |s| ==> ValidChar(s[i])) ==> r == s
  {
    if s == [] then []
    else if ValidChar(s[0]) then [s[0]] + KeepValid(s[1..])
    else KeepValid(s[1..])
  }

  /** The package name suggested for a project name. */
  function DerivePackage(name: Str): (r: Str)
  {
    KeepValid(DropLeadingNonLetters(Lower(name)))
  }

  /**
   * A derived package name uses only [a-z0-9_], is empty or starts with a
   * letter, and deriving again leaves it as it is.
   */
  lemma DerivedPackageShape(name: Str)
    ensures var p := DerivePackage(name);
            (forall i :: 0 <= i < |p| ==> ValidChar(p[i])) &&
            (p == [] || IsLowerLetter(p[0])) &&
            DerivePackage(p) == p
  {
    var p := DerivePackage(name);
    assert Lower(p) == p;
    assert DropLeadingNonLetters(p) == p;
  }

  /** `ormflags`: no ORM chosen means SQLAlchemy, and Elixir implies SQLAlchemy. */
  datatype OrmFlags = OrmFlags(sqlalchemy: bool, sqlobject: bool, elixir: bool)

  /** The ORM resolution of `quickstart.__init__`. */
  function ResolveOrm(given: OrmFlags): (r: OrmFlags)
    ensures r.sqlobject == given.sqlobject && r.elixir == given.elixir
    ensures r.sqlalchemy <==> given.sqlalchemy || given.elixir || !given.sqlobject
    ensures r.sqlalchemy || r.sqlobject
  {
    var f := if !(given.sqlalchemy || given.elixir || given.sqlobject) then given.(sqlalchemy := true) else given;
    if f.elixir then f.(sqlalchemy := true) else f
  }

  // ---------------------------------------------------------------------
  // The name and package prompts

  /**
   * Asking until a value is had: an empty line takes `default`, and when
   * that is empty too the question is asked again. The value had and the
   * number of lines read.
   */
  function Prompted(default: Str, lines: seq<Str>): (r: Option<(Str, nat)>)
    ensures r.Some? ==> r.value.0 != [] && 0 < r.value.1 <= |lines|
    ensures r.Some? ==> r.value.0 == (if lines[r.value.1 - 1] != [] then lines[r.value.1 - 1] else default)
    ensures r.Some? ==> forall i :: 0 <= i < r.value.1 - 1 ==> lines[i] == []
    ensures default != [] ==> (r.None? <==> lines == []) && (r.Some? ==> r.value.1 == 1)
    ensures default == [] && r.None? ==> forall i :: 0 <= i < |lines| ==> lines[i] == []
    decreases |lines|
  {
    if lines == [] then None
    else if lines[0] != [] then Some((lines[0], 1))
    else if default != [] then Some((default, 1))
    else Shifted(Prompted(default, lines[1..]), 1)
  }

  // ---------------------------------------------------------------------
  // The identity prompt

  /** A prompt's answer: `lower()`ed, empty or 'n…' declines, 'y…' accepts, anything else asks again. */
  datatype Answer = Declined | Accepted | Unclear

  function ReadAnswer(line: Str): (r: Answer)
    ensures r == Declined <==> Lower(line) == [] || Lower(line)[0] == 'n'
    ensures r == Accepted <==> Lower(line) != [] && Lower(line)[0] == 'y'
  {
    var a := Lower(line);
    if a == [] || a[0] == 'n' then Declined
    else if a[0] == 'y' then Accepted
    else Unclear
  }

  /** The first decisive answer among `lines`: whether it accepts, and how many lines were read. */
  function IdentityDecision(lines: seq<Str>): (r: Option<(bool, nat)>)
    ensures r.Some? ==> 0 < r.value.1 <= |lines| && ReadAnswer(lines[r.value.1 - 1]) != Unclear &&
                        (r.value.0 <==> ReadAnswer(lines[r.value.1 - 1]) == Accepted)
    ensures r.Some? ==> forall i :: 0 <= i < r.value.1 - 1 ==> ReadAnswer(lines[i]) == Unclear
    ensures r.None? ==> forall i :: 0 <= i < |lines| ==> ReadAnswer(lines[i]) == Unclear
    decreases |lines|
  {
    if lines == [] then None
    else
      match ReadAnswer(lines[0])
      case Declined => Some((false, 1))
      case Accepted => Some((true, 1))
      case Unclear =>
        var rest := IdentityDecision(lines[1..]);
        if rest.None? then None else Some((rest.value.0, rest.value.1 + 1))
  }

  /** The identity provider chosen for a project: by the ORM when identity is wanted, else 'none'. */
  function IdentityFor(wanted: bool, orm: OrmFlags): (r: Str)
    ensures !wanted ==> r == "none"
    ensures wanted && (orm.sqlalchemy || orm.elixir) ==> r == "sqlalchemy"
    ensures wanted && !(orm.sqlalchemy || orm.elixir) ==> r == "sqlobject"
  {
    if !wanted then "none" else if orm.sqlalchemy || orm.elixir then "sqlalchemy" else "sqlobject"
  }

  /** A quickstart run's settings, and the input its prompts have not read yet. */
  class Quickstart {
    var name: Str
    var package: Str
    var orm: OrmFlags
    var identityFlag: bool
    var promptIdentity: bool
    var identity: Str
    var input: seq<Str>

    /** `quickstart.__init__`: the switches resolved, the first argument as project name. */
    constructor (given: OrmFlags, identityFlag: bool, promptIdentity: bool, package: Str, args: seq<Str>, input: seq<Str>)
      ensures orm == ResolveOrm(given) && this.identityFlag == identityFlag && this.promptIdentity == promptIdentity
      ensures name == (if args != [] then args[0] else []) && this.package == package && this.input == input
      ensures identity == []
    {
      orm := ResolveOrm(given);
      this.identityFlag := identityFlag;
      this.promptIdentity := promptIdentity;
      name := if args != [] then args[0] else [];
      this.package := package;
      identity := [];
      this.input := input;
    }

    /** The project name question of `run`, asked until the answer is not empty. */
    method AskName() returns (r: Result<()>)
      modifies this
      ensures package == old(package) && orm == old(orm) && identity == old(identity)
      ensures identityFlag == old(identityFlag) && promptIdentity == old(promptIdentity)
      ensures old(name) != [] ==> r.Ok? && name == old(name) && input == old(input)
      ensures old(name) == [] ==>
                var p := Prompted([], old(input));
                (p.None? ==> r == Err(EOFError)) &&
                (p.Some? ==> r.Ok? && name == p.value.0 && input == old(input)[p.value.1..])
    {
      if name != [] {
        return Ok(());
      }
      var lines := input;
      var p := Prompt([], lines);
      if p.None? {
        return Err(EOFError);
      }
      name := p.value.0;
      input := lines[p.value.1..];
      return Ok(());
    }

    /**
     * The package name question of `run`: the name derived from the project
     * name is offered, and taken on an empty answer.
     */
    method AskPackage() returns (r: Result<()>)
      modifies this
      ensures name == old(name) && orm == old(orm) && identity == old(identity)
      ensures identityFlag == old(identityFlag) && promptIdentity == old(promptIdentity)
      ensures old(package) != [] ==> r.Ok? && package == old(package) && input == old(input)
      ensures old(package) == [] ==>
                var p := Prompted(DerivePackage(name), old(input));
                (p.None? ==> r == Err(EOFError)) &&
                (p.Some? ==> r.Ok? && package == p.value.0 && input == old(input)[p.value.1..])
    {
      r := Ok(());
      if package == [] {
        var lines := input;
        var p := Prompt(DerivePackage(name), lines);
        match p
        case None =>
          r := Err(EOFError);
        case Some((answer, read)) =>
          package, input := answer, lines[read..];
      }
    }

    /**
     * The identity question of `run`: asked only when prompting is on and
     * `-i` was not given, until an answer decides; running out of input
     * raises EOFError.
     */
    method AskIdentity() returns (r: Result<()>)
      modifies this
      ensures name == old(name) && package == old(package) && orm == old(orm)
      ensures identityFlag == old(identityFlag) && promptIdentity == old(promptIdentity)
      ensures identityFlag || !promptIdentity ==>
                r.Ok? && input == old(input) && identity == IdentityFor(identityFlag, orm)
      ensures !identityFlag && promptIdentity ==>
                var d := IdentityDecision(old(input));
                (d.None? ==> r == Err(EOFError)) &&
                (d.Some? ==> r.Ok? && input == old(input)[d.value.1..] && identity == IdentityFor(d.value.0, orm))
    {
      var doIdentity := identityFlag;
      if doIdentity || !promptIdentity {
        identity := IdentityFor(doIdentity, orm);
        return Ok(());
      }
      var lines := input;
      var read: nat := 0;
      var decided := false;
      while !decided
        invariant unchanged(this)
        invariant 0 <= read <= |lines|
        invariant decided ==> IdentityDecision(lines) == Some((doIdentity, read))
        invariant !decided ==> forall i :: 0 <= i < read ==> ReadAnswer(lines[i]) == Unclear
        invariant !decided ==> IdentityDecision(lines) == Shifted(IdentityDecision(lines[read..]), read)
        decreases |lines| - read, !decided
      {
        if read == |lines| {
          return Err(EOFError);
        }
        var answer := ReadAnswer(lines[read]);
        IdentityStep(lines, read);
        read := read + 1;
        if answer == Declined {
          doIdentity := false;
          decided := true;
        } else if answer == Accepted {
          doIdentity := true;
          decided := true;
        }
      }
      input := lines[read..];
      identity := IdentityFor(doIdentity, orm);
      return Ok(());
    }
  }

  /** A decision found after `n` more lines. */
  function Shifted<T>(d: Option<(T, nat)>, n: nat): (r: Option<(T, nat)>)
    ensures d.None? <==> r.None?
    ensures d.Some? ==> r == Some((d.value.0, d.value.1 + n))
  {
    if d.None? then None else Some((d.value.0, d.value.1 + n))
  }

  /** A decision `read` lines on, whose own next one is one line further, is `read + 1` lines on. */
  lemma ShiftedTrans<T>(whole: Option<(T, nat)>, next: Option<(T, nat)>, after: Option<(T, nat)>, read: nat)
    requires whole == Shifted(next, read) && next == Shifted(after, 1)
    ensures whole == Shifted(after, read + 1)
  {
    ShiftedTwice(after, 1, read);
  }

  /** The suffix from `read` starts with line `read` and goes on with the suffix after it. */
  lemma SuffixHead<T>(lines: seq<T>, read: nat)
    requires read < |lines|
    ensures lines[read..] != [] && lines[read..][0] == lines[read] && lines[read..][1..] == lines[read + 1..]
  {
  }

  /** Shifting by `a` and then by `b` is shifting by `a + b`. */
  lemma ShiftedTwice<T>(d: Option<(T, nat)>, a: nat, b: nat)
    ensures Shifted(Shifted(d, a), b) == Shifted(d, a + b)
  {
  }

  /** One more line read by a prompt with a default. */
  lemma PromptStep(default: Str, lines: seq<Str>, read: nat)
    requires read < |lines|
    requires Prompted(default, lines) == Shifted(Prompted(default, lines[read..]), read)
    ensures lines[read] != [] || default != [] ==>
              Prompted(default, lines) == Some((if lines[read] != [] then lines[read] else default, read + 1))
    ensures lines[read] == [] && default == [] ==>
              Prompted(default, lines) == Shifted(Prompted(default, lines[read + 1..]), read + 1)
  {
    assert lines[read..][1..] == lines[read + 1..];
  }

  /**
   * One prompt loop of `run`: lines are read until one is not empty, an
   * empty one giving the default when there is one; None when the input
   * runs out first.
   */
  method Prompt(default: Str, lines: seq<Str>) returns (r: Option<(Str, nat)>)
    ensures r == Prompted(default, lines)
  {
    var answer: Str := [];
    var read: nat := 0;
    while answer == []
      invariant 0 <= read <= |lines|
      invariant answer != [] ==> Prompted(default, lines) == Some((answer, read))
      invariant answer == [] ==> Prompted(default, lines) == Shifted(Prompted(default, lines[read..]), read)
      decreases |lines| - read, if answer == [] then 1 else 0
    {
      if read == |lines| {
        assert lines[read..] == [];
        return None;
      }
      PromptStep(default, lines, read);
      answer := lines[read];
      read := read + 1;
      if answer == [] {
        answer := default;
      }
    }
    r := Some((answer, read));
  }

  /** The identity question reads its first line: a decisive answer ends it, an unclear one moves on. */
  lemma DecisionHead(tail: seq<Str>)
    requires tail != []
    ensures ReadAnswer(tail[0]) != Unclear ==> IdentityDecision(tail) == Some((ReadAnswer(tail[0]) == Accepted, 1))
    ensures ReadAnswer(tail[0]) == Unclear ==> IdentityDecision(tail) == Shifted(IdentityDecision(tail[1..]), 1)
  {
  }

  /** A decisive answer on the next line settles the identity question there. */
  lemma IdentityStepDecisive(lines: seq<Str>, read: nat)
    requires read < |lines| && ReadAnswer(lines[read]) != Unclear
    requires IdentityDecision(lines) == Shifted(IdentityDecision(lines[read..]), read)
    ensures IdentityDecision(lines) == Some((ReadAnswer(lines[read]) == Accepted, read + 1))
  {
    SuffixHead(lines, read);
    DecisionHead(lines[read..]);
  }

  /** An unclear answer on the next line leaves the identity question to the lines after it. */
  lemma IdentityStepUnclear(lines: seq<Str>, read: nat)
    requires read < |lines| && ReadAnswer(lines[read]) == Unclear
    requires IdentityDecision(lines) == Shifted(IdentityDecision(lines[read..]), read)
    ensures IdentityDecision(lines) == Shifted(IdentityDecision(lines[read + 1..]), read + 1)
  {
    SuffixHead(lines, read);
    DecisionHead(lines[read..]);
    ShiftedTrans(IdentityDecision(lines), IdentityDecision(lines[read..]), IdentityDecision(lines[read + 1..]), read);
  }

  /** One more line read by the identity question. */
  lemma IdentityStep(lines: seq<Str>, read: nat)
    requires read < |lines|
    requires IdentityDecision(lines) == Shifted(IdentityDecision(lines[read..]), read)
    ensures ReadAnswer(lines[read]) != Unclear ==>
              IdentityDecision(lines) == Some((ReadAnswer(lines[read]) == Accepted, read + 1))
    ensures ReadAnswer(lines[read]) == Unclear ==>
              IdentityDecision(lines) == Shifted(IdentityDecision(lines[read + 1..]), read + 1)
  {
    if ReadAnswer(lines[read]) == Unclear {
      IdentityStepUnclear(lines, read);
    } else {
      IdentityStepDecisive(lines, read);
    }
  }

  /** A derived package name is offered once: the first answer, or the derived name when it is empty. */
  lemma DerivedPackageOfferedOnce(name: Str, answer: Str, rest: seq<Str>)
    requires DerivePackage(name) != []
    ensures Prompted(DerivePackage(name), [answer] + rest) ==
            Some((if answer != [] then answer else DerivePackage(name), 1))
  {
    assert ([answer] + rest)[0] == answer;
  }

  /** Unclear answers are skipped: only the first decisive one counts. */
  lemma UnclearAnswersSkipped(unclear: seq<Str>, decisive: Str, rest: seq<Str>)
    requires forall i :: 0 <= i < |unclear| ==> ReadAnswer(unclear[i]) == Unclear
    requires ReadAnswer(decisive) != Unclear
    ensures IdentityDecision(unclear + [decisive] + rest) == Some((ReadAnswer(decisive) == Accepted, |unclear| + 1))
  {
    var lines := unclear + [decisive] + rest;
    var d := IdentityDecision(lines);
    assert lines[|unclear|] == decisive;
    assert forall i :: 0 <= i < |unclear| ==> lines[i] == unclear[i];
  }

  // ---------------------------------------------------------------------
  // Template arguments

  /** One `--template=<t>` argument per space-separated template, in order. */
  function TemplateArgs(templates: Str): (r: seq<Str>)
    ensures |r| == |Split(templates, ' ')|
    ensures forall i :: 0 <= i < |r| ==> r[i] == "--template=" + Split(templates, ' ')[i]
  {
    var parts := Split(templates, ' ');
    seq(|parts|, i requires 0 <= i < |parts| => "--template=" + parts[i])
  }

  /** The template names of the arguments, joined with spaces, give back the templates option. */
  lemma TemplateArgsRoundTrip(templates: Str)
    ensures var args := TemplateArgs(templates);
            Join(seq(|args|, i requires 0 <= i < |args| => args[i][|"--template="|..]), " ") == templates
  {
    var args := TemplateArgs(templates);
    var names := seq(|args|, i requires 0 <= i < |args| => args[i][|"--template="|..]);
    assert names == Split(templates, ' ') by {
      forall i | 0 <= i < |args|
        ensures names[i] == Split(templates, ' ')[i]
      {
        assert ("--template=" + Split(templates, ' ')[i])[|"--template="|..] == Split(templates, ' ')[i];
      }
    }
    JoinSplit(templates, ' ');
  }

  // ---------------------------------------------------------------------
  // update

  /** The switches given on the command line. */
  datatype Switches = Switches(sqlalchemy: bool, elixir: bool, sqlobject: bool, identity: bool)

  /** `update`'s option parsing as written: `--elixir` defaults to True, so it is on whether given or not. */
  function UpdateOptionsAsWritten(s: Switches): (r: Switches)
    ensures r.elixir && r.sqlalchemy == s.sqlalchemy && r.sqlobject == s.sqlobject && r.identity == s.identity
  {
    s.(elixir := true)
  }

  /** `update`'s option parsing with `--elixir` off unless given, like the other switches. */
  function UpdateOptions(s: Switches): (r: Switches)
    ensures r == s
  {
    s
  }

  /** The ORMs and identity provider `update.run` settles on. */
  datatype UpdateChoice = UpdateChoice(sqlalchemy: bool, sqlobject: bool, elixir: bool, identity: Str)

  /**
   * `update.run`'s resolution: SQLAlchemy when asked for, implied by
   * Elixir or configured by `sqlalchemy.dburi`, and SQLObject otherwise;
   * identity when asked for or `tools.identity.on` is set, provided by the
   * chosen ORM.
   */
  function ResolveUpdate(o: Switches, configDburi: bool, configIdentity: bool): (r: UpdateChoice)
    ensures r.sqlalchemy != r.sqlobject
    ensures r.sqlobject <==> !o.sqlalchemy && !o.elixir && !configDburi
    ensures r.elixir == o.elixir
    ensures (o.identity || configIdentity) ==> r.identity == (if r.sqlalchemy then "sqlalchemy" else "sqlobject")
    ensures !(o.identity || configIdentity) ==> r.identity == "none"
  {
    var sqlalchemy := o.sqlalchemy || configDburi;
    var sqlalchemy' := if o.elixir then true else sqlalchemy;
    var sqlobject := !o.elixir && !sqlalchemy;
    var identity := o.identity || configIdentity;
    UpdateChoice(sqlalchemy', sqlobject, o.elixir,
                 if identity then (if sqlalchemy' then "sqlalchemy" else "sqlobject") else "none")
  }

  /** As written, `update --sqlobject` still updates the project for SQLAlchemy and Elixir. */
  lemma SqlObjectSwitchIgnored(s: Switches, configDburi: bool, configIdentity: bool)
    ensures var r := ResolveUpdate(UpdateOptionsAsWritten(s), configDburi, configIdentity);
            !r.sqlobject && r.sqlalchemy && r.elixir
  {
  }

  /** With `--elixir` off by default, a project without SQLAlchemy configuration updates for SQLObject. */
  lemma SqlObjectSwitchHonoured(configIdentity: bool)
    ensures var r := ResolveUpdate(UpdateOptions(Switches(false, false, true, false)), false, configIdentity);
            r.sqlobject && !r.sqlalchemy && !r.elixir &&
            (configIdentity ==> r.identity == "sqlobject")
  {
  }

  // ---------------------------------------------------------------------
  // get_requirement

  /** A requirement of the GearShift distribution: the project it names and the rest of its line. */
  datatype Requirement = Requirement(projectName: Str, specifier: Str)

  /** The project `get_requirement` looks for: the package when one is given, otherwise the extra's name. */
  function RequirementTarget(name: Str, pkg: Option<Str>): (r: Str)
    ensures pkg.Some? && pkg.value != [] ==> r == pkg.value
    ensures pkg.None? || pkg.value == [] ==> r == name
  {
    if pkg.Some? && pkg.value != [] then pkg.value else name
  }

  /**
   * `get_requirement(name, pkg)`: a requirement the extra `name` adds to
   * the distribution's own (`extras`, in the order the set yields them,
   * against `base`) whose project name, lower-cased, is the target;
   * ValueError when there is none.
   */
  function GetRequirement(name: Str, pkg: Option<Str>, extras: seq<Requirement>, base: seq<Requirement>): (r: Result<Requirement>)
    ensures r.Ok? ==> r.value in extras && r.value !in base && Lower(r.value.projectName) == RequirementTarget(name, pkg)
    ensures r.Err? <==> forall q :: q in extras && q !in base ==> Lower(q.projectName) != RequirementTarget(name, pkg)
    ensures r.Err? ==> r.exc == ValueError("Did not find matching " + name + " requirement in the GearShift setup.py:extras_require.")
    decreases |extras|
  {
    if extras == [] then
      Err(ValueError("Did not find matching " + name + " requirement in the GearShift setup.py:extras_require."))
    else if extras[0] !in base && Lower(extras[0].projectName) == RequirementTarget(name, pkg) then Ok(extras[0])
    else GetRequirement(name, pkg, extras[1..], base)
  }

  /** The Elixir version comes from the 'sqlalchemy' extra: a requirement that only the distribution itself has is never chosen. */
  lemma ElixirRequirement(elixir: Requirement, base: seq<Requirement>)
    requires Lower(elixir.projectName) == "elixir" && elixir !in base
    ensures GetRequirement("sqlalchemy", Some("elixir"), [elixir], base) == Ok(elixir)
    ensures GetRequirement("sqlalchemy", Some("elixir"), [elixir], base + [elixir]).Err?
  {
  }
}
