# mapi: question synchronisation with a Moodle course, modelled in Dafny

mapi keeps programming questions written locally (a title, an HTML description
and a set of files, stored as a JSON package) in step with Virtual Programming
Lab (VPL) activities in a Moodle course. A question is matched to an activity
by the label at the head of its title (`@42 Sum of two numbers`). This project
models the decision and assembly logic of the four scripts. The browser, the
file system and the pandoc subprocess are replaced by values passed in.

- `Mapi` (mapi.py): `getVplId` scans the links of the course page for the
  first VPL view link whose label equals the title's label. `main_add` and
  `main_update` turn the answer into create, update or skip. `submitVpl`
  resolves the activity id and sends the form and the two file groups, which
  the model records as a list of requests. `VPL.load` and `VPL.__str__` are
  modelled on a class with the same fields.
- `MapiBuild` (mapi_build.py): `JsonVPL` and its `add_file`, which append to
  exactly one of three groups (upload, keep, required). `build` fills them in
  a fixed order, and the tests file is renamed to `vpl_evaluate.cases`.
- `MapiDef` (mapi_def.py): `load_folder` sorts a directory listing into tests,
  keep and required files. The model keeps the overwrite of `keep`, so only
  `data*` names remain. `build_cfg` emits the five-key record.
- `MBuild` (mbuild.py): `extract_title`, the page-title escaping and the
  pandoc argument list of `generate_html`, a second `JsonVPL`, `mapi_build`,
  the option rule of `main`, and its `--save` / `--load` of the record.
- Shared modules: `Strings` (Python's `split`, `join`, `replace`, `count` and
  an ASCII `lower`), `VplFiles` (`JsonFile`, `JsonFileType`, the package
  record), `Config` (the five-key configuration as a JSON value) and
  `Wrappers` (`Option`, `Result`).

Exceptions the scripts would raise are modelled as `Err` values. In `Mapi`
these are an `IndexError` on an empty title word or link text, and the
`TypeError` when `submitVpl` meets the sentinel `-1`. In the builders, a path
that cannot be opened comes back as `Err(path)`. In mbuild.py's `mapi_build`,
a `None` tests path or file list (the `TypeError` of `open(None)` or
`for entry in None`) is the fault `NoneArgument`.

The scripts keep no index of the course and retry nothing, and the model
follows them:
- every lookup scans the links of the course page it is given;
- a request is sent once; a failure is not retried;
- the merge modes are exactly `main_add` (create or update) and `main_update`
  (update or skip);
- labels are compared as whole words, `@` included (`qindex == index`,
  mapi.py:131-133).

## Model

| member | source | states |
|---|---|---|
| `Mapi.LookupVplId` | mapi.py:118-135 | An empty title word is the only cause of the title-word error. A found id needs a title word starting with `@`. |
| `Mapi.Examine` | mapi.py:126-134 | One loop iteration: a link outside the view prefix is passed over. It raises exactly when it is a view link with empty cleaned text. A hit needs an `@` label, and its id is the URL with the view prefix removed. |
| `Mapi.Scan` | mapi.py:125-135 | The loop raises only on an empty link text. It finds an id only for an `@` label, and with no links it answers "not found". |
| `Mapi.MoodleApi.ViewPrefix` | mapi.py:126 | The view-link prefix is never empty, so it can be matched and replaced. |
| `Mapi.GetVplId` | mapi.py:118-135 | The loop's answer equals `LookupVplId`: the first space-split word of the title is the label, and the links are examined in order with an early return. |
| `Mapi.ScanFirstStop` | mapi.py:125-135 | If all links before position k are passed over, the scan's answer is whatever link k says. If there are no more links, it is "not found". |
| `Mapi.ScanResultHasWitness` | mapi.py:125-135 | Every answer of the scan comes from a first link that is not passed over, or from every link being passed over. |
| `Mapi.FirstMatchWins` | mapi.py:125-134 | A hit preceded only by passed-over links is the result, whatever links follow it. |
| `Mapi.FoundIdComesFromFirstHit` | mapi.py:125-134 | A found id is the id of a hit that has only passed-over links before it. |
| `Mapi.NotFoundIff` | mapi.py:118-135 | The sentinel -1 comes back exactly when the title's word does not start with `@` or no link matches. |
| `Mapi.RaisesOnlyOnEmptyText` | mapi.py:119-131 | The lookup raises only for an empty title word, or for an empty cleaned link text reached before any match. |
| `Mapi.UnlabelledTitleIgnoresLinks` | mapi.py:119-121 | A title whose word does not start with `@` gives "not found" on any course page, so no link is examined. |
| `Mapi.NonViewLinksPassed` | mapi.py:125-126 | A link whose URL does not start with `urlBase + "/mod/vpl/view.php?id="` is never a candidate. |
| `Mapi.HitIff` | mapi.py:126-134 | A link matches exactly when it is a view link and its cleaned text is non-empty. Its first word, after one leading BOM is dropped, must also equal the title's label. The id is the URL with the view prefix replaced by "". |
| `Mapi.HitIdIsUrlTail` | mapi.py:128 | When the view prefix does not occur again in the URL, the found id is the rest of the URL after the prefix. |
| `Mapi.CleanTextKeepsBom` | mapi.py:127-130 | Removing the activity-type suffix commutes with a leading U+FEFF. |
| `Mapi.LeadingBomIgnored` | mapi.py:129-130 | When the cleaned link text is non-empty and does not itself start with a byte-order mark, adding one leading mark does not change the link's verdict. (An empty text raises, while the mark alone is passed over.) |
| `Mapi.UpdateUrlCarriesId` | mapi.py:25 | When `ID_QUESTAO` does not occur in the base URL followed by `/course/modedit.php?update=`, the update URL is that text followed by the id. |
| `Mapi.FilesSaveUrlCarriesId` | mapi.py:28 | When `ID_QUESTAO` does not occur in the base URL followed by the execution-files path, the save URL is that text, the id, then `&action=save`. |
| `Mapi.RequiredSaveUrlCarriesId` | mapi.py:29 | When `ID_QUESTAO` does not occur in the base URL followed by the required-files path, the save URL is that text, the id, then `&action=save`. |
| `Mapi.TailHasNoMarker` | mapi.py:28-29 | The `&action=save` tail after the marker is left unchanged by the replacement. |
| `Mapi.CapitalIBaseCovered` | mapi.py:25 | A base URL with capital letters, such as `https://moodle.IFCE.edu.br`, meets the hypothesis of `UpdateUrlCarriesId`: no `ID_QUESTAO` in the base followed by the update path. |
| `Mapi.CapitalIBaseCoveredFiles` | mapi.py:28 | The same base meets the hypothesis of `FilesSaveUrlCarriesId`: no `ID_QUESTAO` in the base followed by the execution-files path. |
| `Mapi.CapitalIBaseCoveredRequired` | mapi.py:29 | The same base meets the hypothesis of `RequiredSaveUrlCarriesId`: no `ID_QUESTAO` in the base followed by the required-files path. |
| `Mapi.NoMarkerIn` | mapi.py:53 | In a text free of `ID_QUESTAO` followed by the marker, the first occurrence of the marker is the appended one. |
| `Mapi.Vpl.constructor` | mapi.py:144-150 | A fresh VPL has an empty id, no required file, and the given name, description, tests and files. |
| `Mapi.PlainEncoding` | mapi.py:162-163 | Every entry, in order, gets encoding 0 and keeps all its other fields. |
| `Mapi.Vpl.Load` | mapi.py:158-165 | After loading, name and description come from the document and every execution file has encoding 0, with nothing else changed in any entry. A null required file leaves the current one in place. The id and tests are untouched. |
| `Mapi.Vpl.Describe` | mapi.py:168-174 | The loop builds `Rendering` of the VPL: a header, one block per execution file in order, then the required file if one is set. |
| `Mapi.FileBlocksConcat` | mapi.py:170-171 | The per-file text of a concatenation is the concatenation of the texts, so the loop's accumulation is order-preserving. |
| `Mapi.RequiredPayload` | mapi.py:82-85 | The required-files payload is `[requiredFile]` when one is set, and `[]` otherwise. |
| `Mapi.ResolveId` | mapi.py:77-78 | A non-empty id is kept. An empty id is replaced by the lookup's answer. A lookup that raises, or answers "not found" (the -1 that makes the next `.replace` fail), is an error. |
| `Mapi.SubmitVpl` | mapi.py:57-87 | The requests sent are the form, then the execution files, then the required files, both file groups at the resolved id. They equal `SubmitPlan`. The VPL keeps the resolved id. When the id cannot be resolved, `vpl.id` is left as it was. |
| `Mapi.SubmitWithIdSkipsLookup` | mapi.py:77-87 | A VPL that already has an id sends all three requests against that id, whatever the course page shows. |
| `Mapi.Decide` | mapi.py:199-219 | Found gives update at the found id. If not found, `main_add` creates and `main_update` skips. |
| `Mapi.RunQuestion` | mapi.py:196-219 | One iteration of either command (load, look up, dispatch, submit) sends exactly the requests of `QuestionPlan`. |
| `Mapi.AddCreatesWhenNotFound` | mapi.py:199-202 | In `main_add`, an unmatched question starts with the form sent to the new-activity URL. |
| `Mapi.UpdateSkipsWhenNotFound` | mapi.py:213-215 | In `main_update`, an unmatched question makes no remote call. |
| `Mapi.MatchedQuestionUpdated` | mapi.py:203-206 | When the lookup finds a non-empty id, both commands update the question at that id: the form, the encoding-0 files and the required payload, with no second lookup. (An empty found id makes `submitVpl` look up again, mapi.py:77-78.) |
| `Mapi.LookupFaultSendsNothing` | mapi.py:197-199 | A lookup that raises stops the command before anything is sent for that question. |
| `Mapi.CreatedButNotFound` | mapi.py:77-80 | A created question whose label is still absent from the page afterwards has its form sent and then fails. |
| `Mapi.RunCommand` | mapi.py:196-206 | The loop over the question files sends the requests of `CommandPlan`: the questions in order, stopping at the first that raises. |
| `Mapi.ChainStep` | mapi.py:196-206 | A question that raises ends the command. Any other question's requests are followed by those of the rest. |
| `Mapi.ChainFault` | mapi.py:196-219 | From any question on, the command raises exactly when one of those questions raises, and with that question's fault. |
| `Mapi.CommandFaultIsQuestionFault` | mapi.py:196-219 | A command raises exactly when one of its questions does, and then with that question's fault. |
| `Strings.Split` | mapi.py:119 | Like `str.split(sep)`, the result is never an empty list, so `[0]` always exists. |
| `Strings.SplitHead` | mapi.py:119 | The first piece is a prefix of the string. It is the whole string when the separator is absent, and is otherwise followed by the separator. |
| `Strings.SplitPiecesFree` | mbuild.py:19 | No piece contains the separator, so the first line of a text has no newline. |
| `Strings.JoinSplit` | mapi.py:119 | The split loses nothing: joining the pieces with the separator gives the string back, as Python's `split` and `join` do. |
| `Strings.LastPieceOfSplit` | mapi_build.py:38 | `LastPiece` is the last element of the split, the `[-1]` of the source. |
| `Strings.SplitLast` | mapi_build.py:38 | The last piece ends the string, and is either the whole string or preceded by the separator. |
| `Strings.ReplaceAbsent` | mapi.py:127-128 | `replace` leaves a string unchanged when the pattern never occurs in it. |
| `Strings.ReplaceMarker` | mapi.py:53 | When the marker first occurs right after `a`, `replace` puts the replacement there and goes on with the rest. |
| `Strings.ReplaceAfterFreePrefix` | mapi.py:53 | A prefix in which no occurrence of the pattern starts passes through `replace` unchanged. |
| `Strings.ReplaceOneChar` | mbuild.py:49 | `replace` with a one-character pattern replaces each occurrence of that character, one character at a time. |
| `Strings.Count` | mbuild.py:21 | `count` of a character is at most the length. |
| `Strings.CountIsLength` | mbuild.py:21 | A character occurs as many times as the string is long exactly when every character is that one. |
| `VplFiles.FileText` | mapi_build.py:18-19 | The text is the name, a colon, the contents and `:0`. Its length is three more than name and contents together. |
| `VplFiles.ParseFileText` | mapi_build.py:18-19 | A parse result has a colon-free name and prints back as the input. It fails only on a text that has no colon, or does not end in `:0`, or has its first colon inside that `:0`. |
| `VplFiles.FileTextRoundTrip` | mapi_build.py:18-19 | The string form `name:contents:0` determines the file whenever the name has no colon. |
| `VplFiles.BaseNameIsLastComponent` | mapi_build.py:38 | `split(os.sep)[-1]` is a separator-free suffix of the path. It is either all of the path or preceded by a separator, and it is all of the path exactly when the path has no separator. |
| `VplFiles.AddToTouchesOneGroup` | mapi_build.py:40-45 | Adding a file appends it to the chosen group and leaves the other two groups, the title and the description unchanged. |
| `Config.CfgDocument` | mapi_def.py:16-22 | The configuration document has exactly the keys markdown, tests, upload, keep and required, in that order. |
| `Config.LookupLast` | mbuild.py:161-168 | Like `json.load`, a key that occurs several times reads as its last value. |
| `Config.LookupAbsent` | mbuild.py:161-168 | A key that never occurs reads as absent. |
| `Config.StrListRoundTrip` | mbuild.py:151-157 | A list option, or its absence (`null`), reads back as it was written. |
| `Config.CfgFieldsFound` | mbuild.py:151-168 | Each of the five keys of the saved document reads as the value written for it. |
| `Config.CfgRoundTrip` | mbuild.py:151-168 | What `--save` writes, reading the five keys back restores. |
| `MapiBuild.FileNameIsRenameOrBase` | mapi_build.py:38 | The entry name is the rename when it is non-empty, and otherwise the last path component. |
| `MapiBuild.JsonVpl.constructor` | mapi_build.py:29-34 | A fresh package holds the title and description and three empty groups. |
| `MapiBuild.JsonVpl.AddFile` | mapi_build.py:36-45 | An openable path appends exactly one entry, named by rename or base name, to the chosen group and changes nothing else. An unopenable path changes nothing. |
| `MapiBuild.AddAll` | mapi_build.py:61-66 | One `for` loop of `add_file` calls behaves as those calls in order, stopping at the first path that cannot be opened. |
| `MapiBuild.Build` | mapi_build.py:55-71 | `build` fails exactly when `BuildPlan` does, with the same path. Otherwise it returns a fresh package equal to `BuildPlan`'s. |
| `MapiBuild.ReplayGroups` | mapi_build.py:55-71 | A sequence of `add_file` calls succeeds exactly when every path opens. Each group then grows by the entries of the calls that chose it, in call order. |
| `MapiBuild.ReplayFailsAtFirstMissing` | mapi_build.py:55-71 | A failing sequence fails at its first unopenable path. |
| `MapiBuild.BuildFailsIffMissing` | mapi_build.py:55-71 | `build` raises exactly when the description or some opened path is missing, and it reports the first missing one in opening order. |
| `MapiBuild.ReplayConcat` | mapi_build.py:55-71 | Running two lists of `add_file` calls one after the other is running the first, then, if it succeeded, the second on its result. |
| `MapiBuild.ChosenCalls` | mapi_build.py:61-66 | A loop over one group's paths adds their files, named by base name and in path order, to that group, and nothing to the others. |
| `MapiBuild.BuildCallPaths` | mapi_build.py:55-71 | The paths `build` hands to `add_file` are the paths it opens after the description, in the same order. |
| `MapiBuild.BuildCallsChosen` | mapi_build.py:59-70 | In every group, the entries of `build` are those of the tests call, then the keep loop, then the upload loop, then the required call. |
| `MapiBuild.BuildChosen` | mapi_build.py:59-70 | When every path opens, `upload` gets the tests entry and then the upload files, `keep` the keep files, and `required` the renamed required entry. |
| `MapiBuild.BuildGroups` | mapi_build.py:55-71 | A successful build has the argument title and the description file's text. `upload` is the tests file as `vpl_evaluate.cases` (when given and non-empty) followed by the upload files in order. `keep` is the keep files in order. `required` holds the renamed required file, only when its path is non-empty. |
| `MapiBuild.BuildTestsFirst` | mapi_build.py:59-60 | When tests are given, `upload[0]` is the tests file named `vpl_evaluate.cases`. |
| `MapiBuild.BuildRequiredAtMostOne` | mapi_build.py:67-70 | `required` has at most one entry, and exactly one when a non-empty required path is given. |
| `MapiDef.FilterMembers` | mapi_def.py:28-29 | A list comprehension keeps exactly the listed names that pass its test. |
| `MapiDef.FilterFirst` | mapi_def.py:34-36 | The first survivor of a comprehension is the first listed name that passes, and one exists exactly when some name passes. |
| `MapiDef.RegularFiles` | mapi_def.py:27-28 | A name survives the `isfile` filter exactly when the listing marks it as a regular file. |
| `MapiDef.CandidateMembers` | mapi_def.py:27-29 | The classified names are exactly the listed regular files not starting with a dot. |
| `MapiDef.LoadFolder` | mapi_def.py:25-55 | The assignments, in source order, leave `args` equal to `Classify(listing)`, including the overwrite of `keep`. The returned text is `build_cfg` of that record. |
| `MapiDef.Classify` | mapi_def.py:25-52 | Whatever the listing, `markdown` is "Readme.md", `upload` is empty and `keep` and `required` are lists. A `tests` value is a candidate name ending in ".vpl" or ".tio". |
| `MapiDef.TestsIsFirstTestsFile` | mapi_def.py:34-40 | `tests` is the first candidate ending in ".vpl" or ".tio" (case-sensitive). It is None exactly when there is none. |
| `MapiDef.KeepAndRequiredMembers` | mapi_def.py:45-52 | The final `keep` is exactly the candidates whose lower-case name starts with "data", and `required` those starting with "student", both in listing order. |
| `MapiDef.LibAndMainDropped` | mapi_def.py:45-52 | Because of the overwrite, no `lib*` or `main*` name remains in `keep`. |
| `MapiDef.HiddenNamesIgnored` | mapi_def.py:29 | A name starting with "." is in no category. |
| `MapiDef.BuildCfg` | mapi_def.py:15-22 | The output is the serialised five-key document followed by one newline. |
| `MapiDef.BuildCfgDocument` | mapi_def.py:15-22 | The document's keys are exactly markdown, tests, upload, keep, required, and it reads back as the record it came from. |
| `MBuild.FirstLine` | mbuild.py:19 | The first line has no newline. |
| `MBuild.ExtractTitle` | mbuild.py:18-24 | The title is either empty or the first line of the text, and never spans lines. |
| `MBuild.ExtractTitleCases` | mbuild.py:18-24 | A first line made only of `#` (or empty) gives the title "". Any other first line is the title verbatim, leading `#` kept. |
| `MBuild.ExtractTitleFirstLineOnly` | mbuild.py:19 | The title depends only on the text before the first newline. |
| `MBuild.PageTitle` | mbuild.py:49 | The two chained `replace` calls give `Escape(title)`: a backslash before each `!` and `?`, everything else kept. Unescaping it gives the title back. |
| `MBuild.SubstituteBoth` | mbuild.py:49 | Substituting `\!` for `!` and then `\?` for `?` is the single-pass escape. The second pass cannot touch what the first inserted. |
| `MBuild.UnescapeEscape` | mbuild.py:49 | Reading the escaped title back undoes the escaping, so no two titles get the same page title. |
| `MBuild.EscapeStartsSafely` | mbuild.py:49 | An escaped title never begins with a bare `!` or `?`, and it is empty exactly when the title is. |
| `MBuild.PandocCommand` | mbuild.py:48-52 | The list has ten entries with LaTeX and nine without. The input file is second and the output file ninth. The sixth is `pagetitle=` followed by the escaped title extracted from the input's text. |
| `MBuild.MathjaxIffLatex` | mbuild.py:50-52 | The command has ten arguments ending in `--mathjax` when LaTeX is enabled, and nine otherwise. The first nine do not depend on the flag. |
| `MBuild.JsonVpl.constructor` | mbuild.py:83-88 | A fresh package has `upload == [JsonFile("vpl_evaluate.cases", tests)]` and empty `keep` and `required`. |
| `MBuild.JsonVpl.AddFile` | mbuild.py:90-99 | An openable path appends one entry, named by the base name, to the chosen group and changes nothing else. |
| `MBuild.AddAll` | mbuild.py:115-120 | One of the three loops of `mapi_build` raises on a `None` list. Otherwise it behaves as its `add_file` calls in order, stopping at the first missing path. |
| `MBuild.PackVpl` | mbuild.py:109-120 | `mapi_build` raises exactly when `PackPlan` does, with the same fault: a path it cannot open, or a `None` tests path or list. Otherwise its fresh package equals `PackPlan`'s. |
| `MBuild.PackPlanReplay` | mbuild.py:114-120 | With every argument present, the three loops together are one run of all their `add_file` calls, keep then upload then required. |
| `MBuild.PackPresent` | mbuild.py:110-120 | A run that does not raise had a tests path and three lists, and opened the description and the tests file. |
| `MBuild.PackGroups` | mbuild.py:114-120 | A successful `mapi_build` had every argument present and every file opened. It has `upload` = cases file, then the upload files; `keep` = the keep files; `required` = the required files; each in argument order. |
| `MBuild.PackAllOpen` | mbuild.py:115-120 | The three loops open every listed file exactly when each keep, upload and required path exists. |
| `MBuild.PackChosen` | mbuild.py:115-120 | When every listed file opens, the three loops put the upload files in `upload`, the keep files in `keep` and the required files in `required`, each in order. |
| `MBuild.PackFailsIffMissing` | mbuild.py:110-120 | `mapi_build` raises exactly when the description or the tests file is missing, the tests path or a list is `None`, or one of the listed files is missing. |
| `MBuild.NoTestsRaises` | mbuild.py:112 | Without `-t` (mbuild.py:133 gives no default, and line 188 passes `args.tests`), `mapi_build` raises at `open(None)` once the description is read, whatever the lists. |
| `MBuild.NullKeepRaises` | mbuild.py:115 | A `null` keep list, as `--load` copies from a configuration saved without `-k`, raises at its loop before any file is added. |
| `MBuild.ArgsAccepted` | mbuild.py:145-147 | `main` continues exactly when one of markdown, load or folder and one of output or save is given. |
| `MBuild.ApplyConfig` | mbuild.py:162-168 | The step succeeds exactly when the document holds the five keys with the right shapes. `upload`, `keep` and `required` are copied. `markdown` and `tests` are copied only when truthy, and kept otherwise. The other options are untouched. |
| `MBuild.LoadStep` | mbuild.py:159-168 | Without a truthy `--load` the options are unchanged. Otherwise the `--load` path is opened: a missing file is an error, and a present one is applied with `ApplyConfig`. |
| `MBuild.LoadStepAsWritten` | mbuild.py:159-168 | Same, but the path opened is `--folder`: with no `--folder` the open fails on `None`. A missing folder path is an error, and a document at that path is applied. |
| `MBuild.LoadDocument` | mbuild.py:159-161 | The intended `--load` opens the `--load` path, and succeeds exactly when that path holds a document. |
| `MBuild.LoadOpensFolderAsWritten` | mbuild.py:159-161 | As written, `--load cfg.json --output out` passes the option rule and then fails, though `cfg.json` holds a valid configuration, which the intended loader reads. |
| `MBuild.SaveThenLoad` | mbuild.py:149-168 | Loading what `--save` wrote restores upload, keep and required exactly, restores markdown and tests when they were truthy, and leaves the other options alone. |
| `MBuild.LoadAgreesWhenPathsCoincide` | mbuild.py:159-160 | The written and the intended loaders agree whenever `--folder` names the same path as `--load`. |

## Left out

- The mechanize browser (login, form selection, form submission, the HTTP
  opens and `sendVplFiles`' JSON body) is not modelled. A remote write is a
  `Request` value, and the course page is the list of links it shows.
- `exit(1)` when the edit form is not found in `submitVpl` is left out: it is
  part of the browser.
- `listAll` is left out: it is BeautifulSoup scraping and printing.
- `loadConfig`, `getpass`, `argparse` wiring and `main` of mapi.py and
  mapi_def.py are left out: they are I/O and option parsing.
- The file system (`open`, `os.listdir`, `os.path.isfile`, `tempfile`, the
  `CssStyle` temp-file cache) is replaced by input values: a map from path to
  contents, a listing with an is-file flag, a map from path to JSON document.
- The pandoc subprocess and its error printing are left out. Only the argument
  list is modelled, and the CSS path is a parameter.
- `json.dumps` byte layout (indentation, the `__dumper` fallback) is not
  modelled. The documents are JSON values, and `build_cfg`'s serialiser is a
  function parameter.
- `JsonVPL.to_json` / `__str__` and the write of the package (`str(jvpl) + "\n"`)
  are left out, being serialisation.
- The output branch of `mbuild.main` (temp directory, `generate_html`, then
  `mapi_build`) is not modelled as a whole. Its parts are modelled separately.
- The `--folder` branch of `mbuild.main` is left out. It reads the missing
  attribute `args.default` and calls `next` on a list, so it always raises.
- `Mapi.Vpl.Load`: the JSON document of a question is given already parsed.
  The `.json` suffix probing and a missing key raising `KeyError` are not
  modelled.
- `Mapi.SubmitVpl`: when the lookup fails, the model stops with the fault. It
  does not model the integer `-1` that Python leaves in `vpl.id` before the
  `TypeError`.
- `Mapi.RequiredPayload`: a required file given as an empty JSON object is
  falsy in Python and sends nothing. The model treats any present required
  file as sent.
- `VplFiles.BaseName`: `os.sep` is fixed to the POSIX `/`. On Windows Python
  splits on `\`, so a path with backslashes would get a different base name.
- `Strings.Lower` folds only ASCII letters. This differs from `str.lower()`
  only for characters that cannot complete the prefixes data, lib, main and
  student, so the classification is unaffected.
- `MBuild.ApplyConfig`: a loaded document whose keys hold values of another
  shape is reported as `BadConfig`. The model thus rejects some documents that
  Python accepts: a falsy `markdown` or `tests` of another type (`[]`, `0`) is
  skipped by Python, and an `upload`, `keep` or `required` given as another
  iterable (`""`, `{}`) is looped over without error.
- Snapshotting `browser.links()` is not modelled. Each lookup sees one fixed
  list of links, and `Round` gives separate lists for before and after the
  form is submitted.

## Findings

| source | as written | input that shows it | evidently intended | confidence | as-written member | corrected member |
|---|---|---|---|---|---|---|
| mbuild.py:159-161 | the `--load` step opens `args.folder` | `mbuild --load cfg.json --output out` passes the option rule, then calls `open(None)` (TypeError). With `--folder d` also given, it opens the directory `d` instead. | open `args.load`, the configuration path of `--load` | not executed | `MBuild.LoadStepAsWritten` (counterexample `MBuild.LoadOpensFolderAsWritten`) | `MBuild.LoadStep` (round trip `MBuild.SaveThenLoad`) |
