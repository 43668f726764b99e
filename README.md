# create-bongos scaffolding workflow, in Dafny

`create-bongos [project-name]` is a command-line tool that creates a new project from a fixed
template repository (`sammrosen/bongos-base`). It works through these steps in order:

1. It takes the project name from the argument. If the argument is missing or empty, it asks for
   the name in a prompt. A prompt left without an answer ends the process with exit code 0.
2. It checks the name against `/^[a-zA-Z0-9-_]+$/`.
3. It refuses a destination `./<name>` that already exists.
4. It downloads the template into the destination.
5. It checks that the template has a `package.json`.
6. It parses that file, sets its `name` to the project name, and writes it back pretty-printed
   with a trailing newline.
7. It shows the next steps.

Every failure ends the process at once with exit code 1. `process.exit` does not return, so no
enclosing `catch` ever sees it.

The model has four modules:

- `Wrappers` (`wrappers.dfy`): the `Option` and `Result` types.
- `ProjectName` (`project_name.dfy`): `validateProjectName`, modelled as a regular expression. The
  bracket expression `a-zA-Z0-9-_` is parsed into character ranges the way ECMAScript reads it,
  and the anchored `+` is a left-to-right matcher. The lemmas prove that it accepts exactly the
  non-empty strings over ASCII letters, digits, `-` and `_`. The `-` after `0-9` is a literal
  hyphen, not a range.
- `Manifest` (`manifest.dfy`): a JSON value whose object members keep their property order. It
  models the assignment `pkg.name = projectName` with JavaScript's strict-mode rules, and the text
  that is written back. `JSON.parse` and `JSON.stringify` are inputs, given as a `Codec`.
- `Scaffold` (`scaffold.dfy`): the workflow itself.
  - The working directory is a listing of named entries: files with their text, and directories.
  - The prompt's answer, the outcome of the download, and faults of the manifest's read and write
    are inputs, given as a `World`.
  - Every outside call is recorded in order as an `Effect`: the prompt, each `existsSync`, the
    clone, the read, the write, and the next-steps report.
  - `CreateProjectRun` and `ActionRun` give the end state of a run as functions of the state
    before it. The lemmas beside them state what the tool promises.
  - The class `Cli` holds the process state: the working directory, the effects so far, and how
    the run ended. Its methods take the same steps one side effect at a time, and each is proved
    to end in the state those functions give.

Behaviour of the code worth noting:

- A manifest that does not parse is caught by the inner handler around the manifest patch
  (src/index.ts:129-136). It is reported like any other configuration failure, exit code 1. It
  does not reach the outer handler.
- A manifest with no `name` member gets one, added as the last member. This is what JavaScript
  property assignment does.
- The manifest is patched as whatever JSON value it holds:
  - A `null`, string, number or boolean throws a TypeError, because the module is strict-mode
    code. The run then fails with exit code 1.
  - An array accepts the assignment. But `JSON.stringify` does not write the new property, so the
    run succeeds and the array is written back without the name (`ArrayManifestKeepsNoName`).

## Model

| member | source | states |
|---|---|---|
| `ProjectName.ParseClass` | src/index.ts:25 | the body of a bracket expression read left to right as ECMAScript's ClassRanges: `x-y` is a range, any other character stands for itself |
| `ProjectName.InClass` | src/index.ts:25 | a character matches the bracket expression exactly when it lies in one of its ranges |
| `ProjectName.MatchesWhole` | src/index.ts:25-26 | `test` with `^…+$`: the anchored `+` consumes the whole string left to right, one class character at a time, at least one |
| `ProjectName.NameClassRanges` | src/index.ts:25 | the bracket expression `a-zA-Z0-9-_` is the five items a–z, A–Z, 0–9, a literal `-` and `_` |
| `ProjectName.InNameClass` | src/index.ts:25 | a character is in the pattern's class exactly when it is an ASCII letter, digit, `-` or `_` |
| `ProjectName.MatchesWholeIff` | src/index.ts:25-26 | an anchored `^[…]+$` test accepts exactly the non-empty strings whose every character is in the class |
| `ProjectName.ValidateProjectName` | src/index.ts:23-27 | `validateProjectName`: the test of the whole name against the parsed pattern; its meaning is stated by the two lemmas below |
| `ProjectName.ValidateProjectNameIff` | src/index.ts:23-27 | `validateProjectName(s)` holds if and only if `s` is non-empty and every character is in A–Z, a–z, 0–9, `-` or `_` |
| `ProjectName.ValidNameIsOneComponent` | src/index.ts:23-27 | a valid name has no space, `/`, `\`, `.` or non-ASCII character and is neither `.` nor `..`, so it names a direct child of the working directory |
| `ProjectName.NameExamples` | src/index.ts:23-27 | `my-app` is accepted; `bad name!` and the empty string are refused |
| `Manifest.Get` | src/index.ts:125 | reading a property gives a value exactly when the object has a member of that name, and the value is that member's |
| `Manifest.SetProperty` | src/index.ts:125 | assigning a property keeps an existing member in its place, or else appends it; every other member keeps its value and position |
| `Manifest.GetAfterSetProperty` | src/index.ts:125 | after the assignment, reading the property gives the new value, and reading any other property gives what it gave before |
| `Manifest.SetPropertyKeepsKeysDistinct` | src/index.ts:124-125 | an object with distinct member names keeps them distinct after the assignment |
| `Manifest.SetPropertyMembers` | src/index.ts:125 | every member after the assignment is the member that was at its place, or the new one, either where the first member of that name was or appended |
| `Manifest.NameIsNotArrayIndex` | src/index.ts:125 | `name` is not an array index, so JavaScript keeps it in creation order rather than moving it to the front |
| `Manifest.SetNameKeepsCanonical` | src/index.ts:124-126 | setting `name` to a string on an object that `JSON.parse` can return (distinct names, in enumeration order, canonical numbers) gives an object it can return |
| `Manifest.TemplateManifestCanonical` | src/index.ts:124 | the sample manifest `{"name":"template","version":"1.0.0"}` is a value `JSON.parse` can return |
| `Manifest.AssignName` | src/index.ts:125 | `pkg.name = name` succeeds exactly on objects and arrays; on an object `name` reads back as the project name and every other property is unchanged; an array is written back unchanged |
| `Manifest.PatchManifest` | src/index.ts:124-126 | the written text ends in `"\n"`; it fails as a parse error exactly when parsing fails, and as a TypeError exactly when the parsed value is neither an object nor an array |
| `Manifest.PatchedManifestReadsBack` | src/index.ts:124-126 | with a codec that reads back every value `JSON.parse` can return, the written manifest of an object that `JSON.parse` returned reads back as that object with `name` set |
| `Manifest.TemplateScenario` | src/index.ts:124-126 | `{"name":"template","version":"1.0.0"}` becomes `{"name":"my-app","version":"1.0.0"}` |
| `Scaffold.ManifestPath` | src/index.ts:113 | `path.join(targetDir, 'package.json')`: `<dest>/package.json` as the two-component path `[name, "package.json"]` |
| `Scaffold.Lookup` | src/index.ts:70 | a one-component path exists exactly when the working directory has that entry |
| `Scaffold.ManifestLookup` | src/index.ts:113-115 | once the template is in the destination, `<dest>/package.json` exists exactly when the template has a `package.json` |
| `Scaffold.ExitCode` | src/index.ts:55-184 | the exit code is 0 exactly for a cancelled prompt and for a successful run, and 1 for every failure |
| `Scaffold.Message` | src/index.ts:96 | the message reported for a failure: the `Error`'s own message, or `Unknown error` for any other thrown value |
| `Scaffold.AfterFetch` | src/index.ts:85-90 | the clone changes only the destination entry: a finished download puts the template there, a failed one leaves whatever it had written, or nothing |
| `Scaffold.ReadEntry` | src/index.ts:124 | reading the manifest gives its text exactly when it is a file and the read does not fault; a read fault returns its own error, and a directory fails with EISDIR |
| `Scaffold.ConfigureRun` | src/index.ts:106-139 | after the download, the run fails as a missing manifest exactly when the template has no `package.json`, and succeeds exactly when the manifest is a readable file that patches and the write does not fault; failure leaves the directory as it was, success replaces only the manifest by the patched text; the manifest check, read, write and report happen in order, cut off at the failure |
| `Scaffold.CreateProjectRun` | src/index.ts:55-147 | `createProject` never ends as cancelled; its calls are the existence check, clone, manifest check, read, write and report, in that order, cut off exactly where its outcome says it stopped |
| `Scaffold.OnlyDestinationTouched` | src/index.ts:67-126 | no entry of the working directory other than the destination is created or changed |
| `Scaffold.InvalidNameStopsFirst` | src/index.ts:58-64 | the run fails as an invalid name exactly when the name is invalid, and then exits 1 with no call made and nothing changed |
| `Scaffold.ExistingDestinationNotFetched` | src/index.ts:67-76 | an existing destination (file or directory) stops a valid name with exit code 1 after the existence check alone: no download, nothing changed |
| `Scaffold.FetchFailureLeavesPartial` | src/index.ts:84-104 | a failed download exits 1 with its error message; nothing is read or written, and what the download left stays without cleanup |
| `Scaffold.MissingManifestLeavesTemplate` | src/index.ts:113-122 | a template without `package.json` exits 1 with nothing read or written, and the destination stays exactly as downloaded |
| `Scaffold.ConfigureFailureLeavesTemplate` | src/index.ts:124-136 | a manifest that is a directory, or that cannot be read, parsed, named or written, exits 1; the destination stays as downloaded and no next steps are shown |
| `Scaffold.SuccessReplacesOnlyManifest` | src/index.ts:124-139 | a successful run exits 0, and the destination is the template with only `package.json` replaced by the patched text |
| `Scaffold.NextStepsShownOnce` | src/index.ts:138-139 | the next steps are shown if and only if the run succeeds, exactly once, as its last call |
| `Scaffold.SuccessfulRunNamesManifest` | src/index.ts:113-128 | a valid, free name whose template manifest parses to an object, with no faults, succeeds; the manifest left behind ends in a newline and reads back with `name` equal to the project name and every other member preserved |
| `Scaffold.MyAppScenario` | src/index.ts:55-147 | `my-app` with the template manifest `{"name":"template","version":"1.0.0"}` exits 0, and the manifest reads back as `{"name":"my-app","version":"1.0.0"}` |
| `Scaffold.BadNameScenario` | src/index.ts:58-64 | the argument `bad name!` exits 1 with no call made and nothing changed |
| `Scaffold.ArrayManifestKeepsNoName` | src/index.ts:124-126 | a manifest that is a JSON array leads to success, but reads back as the same array, without the name |
| `Scaffold.NeedsPrompt` | src/index.ts:161 | `!finalProjectName`: the argument is missing or the empty string |
| `Scaffold.Answered` | src/index.ts:174 | `response.projectName` is truthy: the prompt returned a non-empty name |
| `Scaffold.ActionRun` | src/index.ts:157-184 | the run is cancelled exactly when the argument is missing or empty and the prompt gets no non-empty answer; a non-empty argument goes to `createProject` unchanged, without a prompt |
| `Scaffold.CreateProjectNeverPrompts` | src/index.ts:55-147 | `createProject` never shows the prompt |
| `Scaffold.PromptOnlyWithoutName` | src/index.ts:157-184 | the prompt is shown exactly when the argument is missing or empty, and first; an empty or missing answer exits 0 with nothing else done and `createProject` never called; otherwise the answer goes to `createProject` unchanged |
| `Scaffold.Cli.Exit` | src/index.ts:63 | `process.exit` ends the run with the given outcome |
| `Scaffold.Cli.PromptName` | src/index.ts:162-171 | the prompt is recorded and returns the user's answer |
| `Scaffold.Cli.ExistsSync` | src/index.ts:70 | `existsSync` answers whether the path exists, and is recorded |
| `Scaffold.Cli.CloneTemplate` | src/index.ts:85-90 | the clone places the template, or whatever partial download there is, at the destination; it is recorded and returns the download's error if there is one |
| `Scaffold.Cli.ReadFileSync` | src/index.ts:124 | `readFileSync` returns the file's text or the error, and is recorded |
| `Scaffold.Cli.WriteFileSync` | src/index.ts:126 | `writeFileSync` replaces the file in the destination unless the write faults, and is recorded |
| `Scaffold.Cli.ConfigureProject` | src/index.ts:106-139 | the manifest half of `createProject` ends in the outcome, working directory and calls that `ConfigureRun` gives |
| `Scaffold.Cli.CreateProject` | src/index.ts:55-147 | `createProject` ends in the outcome, working directory and calls that `CreateProjectRun` gives |
| `Scaffold.Cli.Action` | src/index.ts:157-184 | the command's action ends in the outcome, working directory and calls that `ActionRun` gives |

## Left out

- The banner, the spinners, the colours and the exact text of every message are cosmetic output
  and are not modelled (src/index.ts:29-53). Errors are kept as outcomes. Only the
  error-or-"Unknown error" message of a failed download is kept.
- Reading the tool's own version and parsing the command line are not modelled
  (src/index.ts:15-17, 152-156, 186). This includes `--version` and `--help`. The argument is an
  input `Option<string>`.
- The `prompts` interaction is not modelled. Its answer is an input. The prompt's own validation,
  which re-asks until a valid name is entered, belongs to the library and is not modelled.
  `createProject` validates the answer again anyway. The suggested default `my-bongos-app` is not
  modelled either.
- The network download done by degit is not modelled. Its outcome is an input: the template's
  entries, or an error with whatever it had written. Cache and force options have no effect in
  the model, because the destination never exists when the download starts.
- Files degit keeps outside the destination are not modelled. degit writes its downloaded tarball
  and an index under `~/.degit` even with `cache: false`. So `OnlyDestinationTouched` speaks of
  the working directory's other entries only as far as that directory is not `$HOME` or one of
  its parents.
- `JSON.parse` and `JSON.stringify(pkg, null, 2)` are inputs (`Codec`). The 2-space layout is
  not modelled. That a pretty-printed value parses back to itself is assumed only by the lemmas
  that need it, and only for values `JSON.parse` can return (`Canonical`): distinct member names,
  array indices first and ascending, numbers held as the text `JSON.stringify` prints. Numbers
  are kept as that text, because floating point is not modelled.
- A manifest number that `JSON.parse` reads as `Infinity` (such as `1e400`) is written back as
  `null`. Such a manifest is not `Canonical`, so the read-back lemmas say nothing about it.
- `pkg.name = projectName` changes the parsed object in place. It is modelled as a new value,
  `SetProperty`. The object is not shared with anything else, so no aliasing is lost.
- `path.resolve(process.cwd(), name)` is modelled as the entry `name` of the working directory.
  `ValidNameIsOneComponent` shows that every name that passes validation is one path component.
- Entry names are compared exactly. On a case-insensitive filesystem (the default on macOS and
  Windows) `existsSync` finds `my-app` when asked for `My-App` and the run stops there; the model
  would go on to the download.
- The time between `existsSync` and the clone is not modelled. Another process could create the
  destination in that time; that is concurrency, outside a sequential model.
- A write that faults leaves the manifest unchanged. A partly written file is not modelled.
- The outer handler (src/index.ts:140-146) and `main().catch` (src/index.ts:189-192) are not
  modelled. In the model nothing outside the inner handlers can throw. In the tool,
  `process.cwd()` inside `path.resolve` (src/index.ts:67) throws ENOENT when the working
  directory has been removed, and a spinner or console call could throw as well; the outer
  handler then reports the error and exits with code 1. The model has no such outcome.
- src/degit.d.ts only declares types, so it is not modelled.
