/**
 * The scaffolding workflow of `create-bongos`: `createProject` and the action
 * that `main` registers for the command line.
 *
 * A run resolves the project name (from the argument, or else from a prompt
 * that may be cancelled), validates it, refuses a destination that already
 * exists, downloads the template into the destination, patches the `name` of
 * its `package.json`, and shows the next steps. Every failure ends the process
 * at once with exit code 1 (`process.exit` does not return, so no enclosing
 * `catch` sees it); a cancelled prompt ends it with exit code 0.
 *
 * The working directory is a listing of named entries. The prompt answer, the
 * outcome of the download and faults of the manifest's read and write are
 * inputs (a `World`), as are `JSON.parse` and `JSON.stringify` (a `Codec`).
 * Every call the run makes outside itself is recorded, in order, as an `Effect`.
 *
 * `CreateProjectRun` and `ActionRun` state what a run does, as functions of
 * the state before it; the lemmas beside them state what the tool promises. The class
 * `Cli` runs the same steps one side effect at a time and is proved to end in
 * the state those functions give.
 */
module Scaffold {
  import opened Wrappers
  import opened ProjectName
  import opened Manifest

  /** A filesystem entry: a file and its text, or a directory and its entries by name. */
  datatype Entry = File(text: string) | Directory(entries: map<string, Entry>)

  /** The entries of one directory by name; the working directory is one of these. */
  type Listing = map<string, Entry>

  /** A path relative to the working directory, one name per component. */
  type Path = seq<string>

  /** The template repository that is downloaded. */
  const TemplateRepo: string := "sammrosen/bongos-base"

  /** The manifest inside the destination. */
  const ManifestName: string := "package.json"

  /** `path.join(targetDir, 'package.json')` */
  function ManifestPath(name: string): (p: Path)
  {
    [name, ManifestName]
  }

  /** The entry at `path`, if there is one: `fs.existsSync(path)` holds exactly when this is `Some`. */
  function Lookup(dir: Listing, path: Path): (r: Option<Entry>)
    requires |path| > 0
    ensures |path| == 1 ==> r == (if path[0] in dir then Some(dir[path[0]]) else None)
    decreases |path|
  {
    if path[0] !in dir then None
    else if |path| == 1 then Some(dir[path[0]])
    else match dir[path[0]]
      case File(_) => None
      case Directory(entries) => Lookup(entries, path[1..])
  }

  /** After the template is placed at `name`, the manifest path finds the template's manifest, if it has one. */
  lemma ManifestLookup(cwd: Listing, name: string, template: Listing)
    ensures Lookup(cwd[name := Directory(template)], ManifestPath(name))
         == if ManifestName in template then Some(template[ManifestName]) else None
  {
  }

  /** What a failed call carried: an `Error` with its message, or some other value. */
  datatype Thrown = ErrorObject(message: string) | NonError

  /** `error instanceof Error ? error.message : 'Unknown error'` */
  function Message(e: Thrown): (m: string)
  {
    match e
    case ErrorObject(m) => m
    case NonError => "Unknown error"
  }

  /** What `fs.readFileSync` throws when the path is a directory. */
  const IsDirectoryError: Thrown := ErrorObject("EISDIR: illegal operation on a directory, read")

  /**
   * How the template download ends: with the template's top-level entries in
   * the destination, or with an error and, if the destination was created,
   * whatever had been written to it.
   */
  datatype FetchOutcome =
    | Fetched(template: Listing)
    | FetchError(error: Thrown, partial: Option<Listing>)

  /** What a run learns from outside: the prompt's answer, the download, and faults of the manifest's read and write. */
  datatype World = World(
    answer: Option<string>,
    fetch: FetchOutcome,
    readFault: Option<Thrown>,
    writeFault: Option<Thrown>)

  /** Why configuring the project failed (the inner `catch` around the manifest patch). */
  datatype ConfigureError =
    | ReadFailed(readError: Thrown)
    | PatchFailed(patchError: PatchError)
    | WriteFailed(writeError: Thrown)

  /** How a run ends. */
  datatype Outcome =
    | Cancelled
    | InvalidName
    | DestinationExists
    | FetchFailed(message: string)
    | ManifestMissing
    | ConfigureFailed(error: ConfigureError)
    | Succeeded

  /** The process's exit status for each way a run ends. */
  function ExitCode(o: Outcome): (code: int)
    ensures code == 0 || code == 1
    ensures code == 0 <==> o == Cancelled || o == Succeeded
  {
    match o
    case Cancelled => 0
    case Succeeded => 0
    case _ => 1
  }

  /** A call the run makes outside itself. */
  datatype Effect =
    | Prompt
    | Exists(path: Path)
    | Clone(source: string, dest: Path)
    | Read(path: Path)
    | Write(path: Path, text: string)
    | ShowNextSteps(name: string)

  /** `createProject(name)` takes these steps, in this order, until one fails. */
  predicate IsStep(e: Effect, i: nat, name: string)
  {
    match i
    case 0 => e == Exists([name])
    case 1 => e == Clone(TemplateRepo, [name])
    case 2 => e == Exists(ManifestPath(name))
    case 3 => e == Read(ManifestPath(name))
    case 4 => e.Write? && e.path == ManifestPath(name)
    case 5 => e == ShowNextSteps(name)
    case _ => false
  }

  /** How many steps of `createProject` a run that ends with `o` has taken. */
  function StepsTaken(o: Outcome): (k: nat)
  {
    match o
    case Cancelled => 0
    case InvalidName => 0
    case DestinationExists => 1
    case FetchFailed(_) => 2
    case ManifestMissing => 3
    case ConfigureFailed(e) => if e.WriteFailed? then 5 else 4
    case Succeeded => 6
  }

  /** How a run ends, the working directory after it, and the calls it made. */
  datatype Run = Run(outcome: Outcome, cwd: Listing, effects: seq<Effect>)

  /** The working directory once the download ends. */
  function AfterFetch(cwd: Listing, name: string, fetch: FetchOutcome): (r: Listing)
    ensures forall k :: k != name ==> (k in r <==> k in cwd)
    ensures forall k :: k in cwd && k != name ==> r[k] == cwd[k]
    ensures fetch.Fetched? ==> name in r && r[name] == Directory(fetch.template)
    ensures fetch.FetchError? && fetch.partial.None? ==> r == cwd
  {
    match fetch
    case Fetched(template) => cwd[name := Directory(template)]
    case FetchError(_, partial) => if partial.Some? then cwd[name := Directory(partial.value)] else cwd
  }

  /** `fs.readFileSync(pkgPath, 'utf-8')` of the manifest entry. */
  function ReadEntry(e: Entry, fault: Option<Thrown>): (r: Result<string, Thrown>)
    ensures r.Ok? <==> e.File? && fault.None?
    ensures r.Ok? ==> r.value == e.text
    ensures fault.Some? ==> r == Err(fault.value)
    ensures fault.None? && e.Directory? ==> r == Err(IsDirectoryError)
  {
    if fault.Some? then Err(fault.value)
    else match e
      case File(text) => Ok(text)
      case Directory(_) => Err(IsDirectoryError)
  }

  /**
   * The second half of `createProject`, once the template is in the
   * destination `name` of `dir`: the inner `try` block that checks for the
   * manifest, reads it, patches it and writes it back, and then the next steps.
   * Every failure leaves the directory as it was; success replaces the
   * manifest, and nothing else, by the patched text.
   */
  function ConfigureRun(dir: Listing, name: string, world: World, codec: Codec): (r: Run)
    requires name in dir && dir[name].Directory?
    ensures r.outcome == ManifestMissing || r.outcome.ConfigureFailed? || r.outcome == Succeeded
    ensures |r.effects| == StepsTaken(r.outcome) - 2
    ensures forall i :: 0 <= i < |r.effects| ==> IsStep(r.effects[i], i + 2, name)
    ensures r.outcome == ManifestMissing <==> ManifestName !in dir[name].entries
    ensures r.outcome == Succeeded <==>
              && ManifestName in dir[name].entries
              && var m := dir[name].entries[ManifestName];
              && m.File? && world.readFault.None? && world.writeFault.None?
              && PatchManifest(m.text, name, codec).Ok?
    ensures r.outcome != Succeeded ==> r.cwd == dir
    ensures r.outcome == Succeeded ==>
              var files := dir[name].entries;
              r.cwd == dir[name := Directory(files[ManifestName := File(PatchManifest(files[ManifestName].text, name, codec).value)])]
  {
    var files := dir[name].entries;
    var path := ManifestPath(name);
    if ManifestName !in files then Run(ManifestMissing, dir, [Exists(path)])
    else
      match ReadEntry(files[ManifestName], world.readFault)
      case Err(e) => Run(ConfigureFailed(ReadFailed(e)), dir, [Exists(path), Read(path)])
      case Ok(text) =>
        match PatchManifest(text, name, codec)
        case Err(pe) => Run(ConfigureFailed(PatchFailed(pe)), dir, [Exists(path), Read(path)])
        case Ok(patched) =>
          if world.writeFault.Some? then
            Run(ConfigureFailed(WriteFailed(world.writeFault.value)), dir, [Exists(path), Read(path), Write(path, patched)])
          else
            Run(Succeeded, dir[name := Directory(files[ManifestName := File(patched)])],
                [Exists(path), Read(path), Write(path, patched), ShowNextSteps(name)])
  }

  /**
   * `createProject(name)` from the working directory `before`: the run takes
   * the steps of `IsStep` in order and stops at the first that fails, so
   * nothing happens after a failure. The lemmas below say which check stops
   * the run and what it leaves behind.
   */
  function CreateProjectRun(before: Listing, name: string, world: World, codec: Codec): (r: Run)
    // the steps, in order, up to where the run ended
    ensures r.outcome != Cancelled
    ensures |r.effects| == StepsTaken(r.outcome)
    ensures forall i :: 0 <= i < |r.effects| ==> IsStep(r.effects[i], i, name)
  {
    if !ValidateProjectName(name) then Run(InvalidName, before, [])
    else if name in before then Run(DestinationExists, before, [Exists([name])])
    else
      var started := [Exists([name]), Clone(TemplateRepo, [name])];
      var fetched := AfterFetch(before, name, world.fetch);
      match world.fetch
      case FetchError(e, _) => Run(FetchFailed(Message(e)), fetched, started)
      case Fetched(template) =>
        var c := ConfigureRun(fetched, name, world, codec);
        assert forall i :: 2 <= i < 2 + |c.effects| ==> (started + c.effects)[i] == c.effects[i - 2];
        Run(c.outcome, c.cwd, started + c.effects)
  }

  /** Only the destination `name` is ever created or changed; everything else in the working directory stays. */
  lemma OnlyDestinationTouched(before: Listing, name: string, world: World, codec: Codec)
    ensures var r := CreateProjectRun(before, name, world, codec);
            && (forall k :: k != name ==> (k in r.cwd <==> k in before))
            && (forall k :: k in before && k != name ==> r.cwd[k] == before[k])
  {
  }

  /** An invalid name ends the run with exit code 1 before any existence check, download or write. */
  lemma InvalidNameStopsFirst(before: Listing, name: string, world: World, codec: Codec)
    ensures var r := CreateProjectRun(before, name, world, codec);
            && (r.outcome == InvalidName <==> !ValidateProjectName(name))
            && (r.outcome == InvalidName ==> ExitCode(r.outcome) == 1 && r.effects == [] && r.cwd == before)
  {
  }

  /**
   * A destination that exists, as a file or as a directory, ends the run with
   * exit code 1 after the existence check alone: the download is never
   * started and nothing changes.
   */
  lemma ExistingDestinationNotFetched(before: Listing, name: string, world: World, codec: Codec)
    ensures var r := CreateProjectRun(before, name, world, codec);
            && (r.outcome == DestinationExists <==> ValidateProjectName(name) && name in before)
            && (r.outcome == DestinationExists ==>
                  ExitCode(r.outcome) == 1 && r.effects == [Exists([name])] && r.cwd == before)
  {
  }

  /**
   * A failed download ends the run with exit code 1 and the download's error
   * message; the manifest is neither read nor written, and whatever the
   * download left in the destination stays there.
   */
  lemma FetchFailureLeavesPartial(before: Listing, name: string, world: World, codec: Codec)
    ensures var r := CreateProjectRun(before, name, world, codec);
            && (r.outcome.FetchFailed? <==>
                  ValidateProjectName(name) && name !in before && world.fetch.FetchError?)
            && (r.outcome.FetchFailed? ==>
                  && ExitCode(r.outcome) == 1
                  && r.outcome.message == Message(world.fetch.error)
                  && r.effects == [Exists([name]), Clone(TemplateRepo, [name])]
                  && r.cwd == if world.fetch.partial.Some? then before[name := Directory(world.fetch.partial.value)]
                              else before)
  {
  }

  /**
   * A template without `package.json` ends the run with exit code 1; nothing
   * is read or written, and the destination stays exactly as downloaded.
   */
  lemma MissingManifestLeavesTemplate(before: Listing, name: string, world: World, codec: Codec)
    ensures var r := CreateProjectRun(before, name, world, codec);
            && (r.outcome == ManifestMissing <==>
                  ValidateProjectName(name) && name !in before && world.fetch.Fetched?
                  && ManifestName !in world.fetch.template)
            && (r.outcome == ManifestMissing ==>
                  && ExitCode(r.outcome) == 1
                  && r.effects == [Exists([name]), Clone(TemplateRepo, [name]), Exists(ManifestPath(name))]
                  && r.cwd == before[name := Directory(world.fetch.template)])
  {
  }

  /**
   * A manifest that is a directory or cannot be read, parsed, given a name or
   * written ends the run with exit code 1, caught by the inner handler; the
   * destination stays as downloaded and the next steps are not shown.
   */
  lemma ConfigureFailureLeavesTemplate(before: Listing, name: string, world: World, codec: Codec)
    ensures var r := CreateProjectRun(before, name, world, codec);
            && (r.outcome.ConfigureFailed? <==>
                  && ValidateProjectName(name) && name !in before && world.fetch.Fetched?
                  && ManifestName in world.fetch.template
                  && var m := world.fetch.template[ManifestName];
                  !(m.File? && world.readFault.None? && world.writeFault.None?
                    && PatchManifest(m.text, name, codec).Ok?))
            && (r.outcome.ConfigureFailed? ==>
                  && ExitCode(r.outcome) == 1
                  && r.cwd == before[name := Directory(world.fetch.template)]
                  && ShowNextSteps(name) !in r.effects)
  {
  }

  /**
   * A successful run ends with exit code 0; the destination holds the
   * template with only its manifest replaced, by the patched text.
   */
  lemma SuccessReplacesOnlyManifest(before: Listing, name: string, world: World, codec: Codec)
    ensures var r := CreateProjectRun(before, name, world, codec);
            r.outcome == Succeeded ==>
              && ExitCode(r.outcome) == 0
              && world.fetch.Fetched? && ManifestName in world.fetch.template
              && world.fetch.template[ManifestName].File?
              && var patched := PatchManifest(world.fetch.template[ManifestName].text, name, codec);
              && patched.Ok?
              && r.cwd == before[name := Directory(world.fetch.template[ManifestName := File(patched.value)])]
  {
  }

  /** The project name is missing or empty (`!finalProjectName`), so it is asked for. */
  predicate NeedsPrompt(argument: Option<string>)
  {
    argument.None? || argument.value == ""
  }

  /** The prompt was answered with a name (`response.projectName` is a non-empty string). */
  predicate Answered(answer: Option<string>)
  {
    answer.Some? && answer.value != ""
  }

  /**
   * The action `main` registers for `create-bongos [project-name]`: a missing
   * or empty argument is asked for; a prompt left without an answer ends the
   * process with exit code 0 before `createProject` is called; any other name
   * goes to `createProject` as it is.
   */
  function ActionRun(before: Listing, argument: Option<string>, world: World, codec: Codec): (r: Run)
    ensures r.outcome == Cancelled <==> NeedsPrompt(argument) && !Answered(world.answer)
    ensures !NeedsPrompt(argument) ==> r == CreateProjectRun(before, argument.value, world, codec)
  {
    if !NeedsPrompt(argument) then CreateProjectRun(before, argument.value, world, codec)
    else if !Answered(world.answer) then Run(Cancelled, before, [Prompt])
    else
      var c := CreateProjectRun(before, world.answer.value, world, codec);
      Run(c.outcome, c.cwd, [Prompt] + c.effects)
  }

  /** `createProject` never prompts. */
  lemma CreateProjectNeverPrompts(before: Listing, name: string, world: World, codec: Codec)
    ensures Prompt !in CreateProjectRun(before, name, world, codec).effects
  {
    var r := CreateProjectRun(before, name, world, codec);
    forall i | 0 <= i < |r.effects| ensures r.effects[i] != Prompt {
      assert IsStep(r.effects[i], i, name);
    }
  }

  /**
   * The prompt is shown exactly when the argument is missing or empty, and
   * first. Left without an answer, it ends the process with exit code 0 and
   * nothing else happens: `createProject` is not called. An answer goes to
   * `createProject` as it is.
   */
  lemma PromptOnlyWithoutName(before: Listing, argument: Option<string>, world: World, codec: Codec)
    ensures var r := ActionRun(before, argument, world, codec);
            && (NeedsPrompt(argument) <==> Prompt in r.effects)
            && (NeedsPrompt(argument) ==> r.effects[0] == Prompt)
            && (r.outcome == Cancelled ==> ExitCode(r.outcome) == 0 && r.cwd == before && r.effects == [Prompt])
            && (NeedsPrompt(argument) && Answered(world.answer) ==>
                  var c := CreateProjectRun(before, world.answer.value, world, codec);
                  r == Run(c.outcome, c.cwd, [Prompt] + c.effects))
  {
    if !NeedsPrompt(argument) {
      CreateProjectNeverPrompts(before, argument.value, world, codec);
    }
  }

  /** The next steps are shown exactly when the run succeeds, once, as its last call. */
  lemma NextStepsShownOnce(before: Listing, name: string, world: World, codec: Codec)
    ensures var r := CreateProjectRun(before, name, world, codec);
            && (r.outcome == Succeeded <==> ShowNextSteps(name) in r.effects)
            && (r.outcome == Succeeded ==> r.effects[|r.effects| - 1] == ShowNextSteps(name))
            && forall i :: 0 <= i < |r.effects| - 1 ==> !r.effects[i].ShowNextSteps?
  {
  }

  /**
   * A run whose name is valid, whose destination is free, whose download
   * succeeds with a manifest that parses to an object, and whose read and write do not
   * fail, succeeds; and with a codec that reads back what it prints, the
   * manifest left in the destination reads back as the template's with `name`
   * set to the project name, ending in a newline.
   */
  lemma SuccessfulRunNamesManifest(before: Listing, name: string, world: World, codec: Codec, ms: seq<Member>)
    requires ValidateProjectName(name) && name !in before
    requires world.fetch.Fetched? && ManifestName in world.fetch.template
    requires world.fetch.template[ManifestName].File?
    requires codec.parse(world.fetch.template[ManifestName].text) == Some(Obj(ms)) && Canonical(Obj(ms), codec)
    requires world.readFault.None? && world.writeFault.None?
    requires RoundTrips(codec)
    ensures var r := CreateProjectRun(before, name, world, codec);
            && r.outcome == Succeeded && ExitCode(r.outcome) == 0
            && name in r.cwd && r.cwd[name].Directory?
            && ManifestName in r.cwd[name].entries
            && var written := r.cwd[name].entries[ManifestName];
            && written.File? && |written.text| > 0 && written.text[|written.text| - 1] == '\n'
            && codec.parse(written.text) == Some(Obj(SetProperty(ms, "name", Str(name))))
            && Get(SetProperty(ms, "name", Str(name)), "name") == Some(Str(name))
  {
    PatchedManifestReadsBack(world.fetch.template[ManifestName].text, name, codec, ms);
    GetAfterSetProperty(ms, "name", Str(name));
  }

  /**
   * A sample run: `my-app` in a directory without `my-app`, a
   * template whose manifest is `{"name":"template","version":"1.0.0"}`: the
   * run ends with exit code 0 and the manifest reads back as
   * `{"name":"my-app","version":"1.0.0"}`.
   */
  lemma MyAppScenario(before: Listing, world: World, codec: Codec)
    requires "my-app" !in before
    requires world.fetch.Fetched? && ManifestName in world.fetch.template
    requires world.fetch.template[ManifestName].File?
    requires codec.parse(world.fetch.template[ManifestName].text)
          == Some(Obj([Member("name", Str("template")), Member("version", Str("1.0.0"))]))
    requires world.readFault.None? && world.writeFault.None?
    requires RoundTrips(codec)
    ensures var r := CreateProjectRun(before, "my-app", world, codec);
            && ExitCode(r.outcome) == 0
            && codec.parse(r.cwd["my-app"].entries[ManifestName].text)
               == Some(Obj([Member("name", Str("my-app")), Member("version", Str("1.0.0"))]))
  {
    NameExamples();
    TemplateScenario();
    TemplateManifestCanonical(codec);
    SuccessfulRunNamesManifest(before, "my-app", world, codec,
      [Member("name", Str("template")), Member("version", Str("1.0.0"))]);
  }

  /** A sample run: `bad name!` ends with exit code 1 before any call, and nothing changes. */
  lemma BadNameScenario(before: Listing, world: World, codec: Codec)
    ensures var r := ActionRun(before, Some("bad name!"), world, codec);
            ExitCode(r.outcome) == 1 && r.effects == [] && r.cwd == before
  {
    NameExamples();
  }

  /**
   * A manifest that is a JSON array takes the assignment without error, but
   * `JSON.stringify` does not write the new property: the run succeeds and the
   * manifest reads back as the same array, without the project name.
   */
  lemma ArrayManifestKeepsNoName(before: Listing, name: string, world: World, codec: Codec, items: seq<Json>)
    requires ValidateProjectName(name) && name !in before
    requires world.fetch.Fetched? && ManifestName in world.fetch.template
    requires world.fetch.template[ManifestName].File?
    requires codec.parse(world.fetch.template[ManifestName].text) == Some(Arr(items)) && Canonical(Arr(items), codec)
    requires world.readFault.None? && world.writeFault.None?
    requires RoundTrips(codec)
    ensures var r := CreateProjectRun(before, name, world, codec);
            && r.outcome == Succeeded
            && codec.parse(r.cwd[name].entries[ManifestName].text) == Some(Arr(items))
  {
  }

  /**
   * The state of one process running the tool: the working directory, the
   * calls made so far, and how the run ended once it has.
   */
  class Cli {
    var cwd: Listing
    var effects: seq<Effect>
    var outcome: Option<Outcome>

    constructor(cwd: Listing)
      ensures this.cwd == cwd && effects == [] && outcome == None
    {
      this.cwd := cwd;
      effects := [];
      outcome := None;
    }

    /** `process.exit(ExitCode(o))`: the run ends here. */
    method Exit(o: Outcome)
      requires outcome == None
      modifies this`outcome
      ensures outcome == Some(o)
    {
      outcome := Some(o);
    }

    /** The name prompt, answered with `answer` (`None` when it is aborted). */
    method PromptName(answer: Option<string>) returns (response: Option<string>)
      modifies this`effects
      ensures response == answer
      ensures effects == old(effects) + [Prompt]
    {
      effects := effects + [Prompt];
      response := answer;
    }

    /** `fs.existsSync(path)` */
    method ExistsSync(path: Path) returns (b: bool)
      requires |path| > 0
      modifies this`effects
      ensures b <==> Lookup(cwd, path).Some?
      ensures effects == old(effects) + [Exists(path)]
    {
      effects := effects + [Exists(path)];
      b := Lookup(cwd, path).Some?;
    }

    /** `degit(TemplateRepo, { cache: false, force: true }).clone(name)`, which resolves or rejects as `fetch` says. */
    method CloneTemplate(name: string, fetch: FetchOutcome) returns (error: Option<Thrown>)
      modifies this`cwd, this`effects
      ensures cwd == AfterFetch(old(cwd), name, fetch)
      ensures effects == old(effects) + [Clone(TemplateRepo, [name])]
      ensures error == if fetch.FetchError? then Some(fetch.error) else None
    {
      effects := effects + [Clone(TemplateRepo, [name])];
      cwd := AfterFetch(cwd, name, fetch);
      error := if fetch.FetchError? then Some(fetch.error) else None;
    }

    /** `fs.readFileSync(path, 'utf-8')` of an entry that exists; `fault` is an error of the read itself. */
    method ReadFileSync(path: Path, fault: Option<Thrown>) returns (r: Result<string, Thrown>)
      requires |path| > 0 && Lookup(cwd, path).Some?
      modifies this`effects
      ensures r == ReadEntry(Lookup(cwd, path).value, fault)
      ensures effects == old(effects) + [Read(path)]
    {
      effects := effects + [Read(path)];
      r := ReadEntry(Lookup(cwd, path).value, fault);
    }

    /** `fs.writeFileSync([dir, file], text)` into a directory of the working directory; `fault` is an error of the write. */
    method WriteFileSync(dir: string, file: string, text: string, fault: Option<Thrown>) returns (error: Option<Thrown>)
      requires dir in cwd && cwd[dir].Directory?
      modifies this`cwd, this`effects
      ensures error == fault
      ensures cwd == if fault.Some? then old(cwd)
                     else old(cwd)[dir := Directory(old(cwd)[dir].entries[file := File(text)])]
      ensures effects == old(effects) + [Write([dir, file], text)]
    {
      effects := effects + [Write([dir, file], text)];
      error := fault;
      if fault.None? {
        cwd := cwd[dir := Directory(cwd[dir].entries[file := File(text)])];
      }
    }

    /** `createProject(name)`: ends as `CreateProjectRun` says, having made its calls in its order. */
    method CreateProject(name: string, world: World, codec: Codec)
      requires outcome == None
      modifies this
      ensures var r := CreateProjectRun(old(cwd), name, world, codec);
              outcome == Some(r.outcome) && cwd == r.cwd && effects == old(effects) + r.effects
    {
      if !ValidateProjectName(name) {
        Exit(InvalidName);
        return;
      }

      var targetExists := ExistsSync([name]);
      if targetExists {
        Exit(DestinationExists);
        return;
      }

      var fetchError := CloneTemplate(name, world.fetch);
      if fetchError.Some? {
        Exit(FetchFailed(Message(fetchError.value)));
        return;
      }

      ConfigureProject(name, world, codec);
    }

    /** The second half of `createProject`, once the template is in the destination: ends as `ConfigureRun` says. */
    method ConfigureProject(name: string, world: World, codec: Codec)
      requires outcome == None
      requires name in cwd && cwd[name].Directory?
      modifies this
      ensures var r := ConfigureRun(old(cwd), name, world, codec);
              outcome == Some(r.outcome) && cwd == r.cwd && effects == old(effects) + r.effects
    {
      var pkgPath := ManifestPath(name);
      ManifestLookup(cwd, name, cwd[name].entries);
      assert cwd[name := Directory(cwd[name].entries)] == cwd;
      var hasManifest := ExistsSync(pkgPath);
      if !hasManifest {
        Exit(ManifestMissing);
        return;
      }

      var read := ReadFileSync(pkgPath, world.readFault);
      if read.Err? {
        Exit(ConfigureFailed(ReadFailed(read.error)));
        return;
      }
      var patched := PatchManifest(read.value, name, codec);
      if patched.Err? {
        Exit(ConfigureFailed(PatchFailed(patched.error)));
        return;
      }
      var writeError := WriteFileSync(name, ManifestName, patched.value, world.writeFault);
      if writeError.Some? {
        Exit(ConfigureFailed(WriteFailed(writeError.value)));
        return;
      }

      effects := effects + [ShowNextSteps(name)];
      outcome := Some(Succeeded);
    }

    /** The command's action: resolve the name, then `createProject`; ends as `ActionRun` says. */
    method Action(argument: Option<string>, world: World, codec: Codec)
      requires outcome == None
      modifies this
      ensures var r := ActionRun(old(cwd), argument, world, codec);
              outcome == Some(r.outcome) && cwd == r.cwd && effects == old(effects) + r.effects
    {
      var finalProjectName := argument;
      if NeedsPrompt(finalProjectName) {
        var response := PromptName(world.answer);
        if !Answered(response) {
          Exit(Cancelled);
          return;
        }
        finalProjectName := response;
      }
      CreateProject(finalProjectName.value, world, codec);
    }
  }
}
