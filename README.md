# Task-folder validator, modelled in Dafny

This project models the core of a browser tool that checks task-recording folders. Each folder holds:

- SFT and annotator trajectories, each a JSON-lines list of steps with screenshots;
- evaluation scores;
- Colab notebooks;
- model runs.

It also models the comparison view and screenshot viewer built on top of those checks. The model follows the JavaScript closely:

- **The virtual file tree** (`js/fileManager.js`).
  - `FileTree` is the tree as a value: an ordered list of `(name, node)` entries, so every "first found" is deterministic. It also holds the functions that specify the queries.
  - `FileManager` is a class with the module state `fileTree`, `fileCache` and `rootFolderName`. Its methods build and query the tree with loops and recursive helpers, and each one is proved against the `FileTree` function for that query.
  - `FileTreeFacts` and `FileTreeQueries` prove what the tree guarantees after a build: files are found where they were stored, folders exist, listings resolve, and counts are bounded.
- **The action grammar and the locators** (`js/utils.js`).
  - `Actions` decodes one `pyautogui` action string with a first-match cascade written directly over strings. `ActionFacts` proves the round trips of the coordinate calls and the order of the rules.
  - `Locators` finds the task JSON, the model name, the trajectory file and the evaluation score.
- **The criteria engine** (`js/analyzer.js`).
  - `Folders` resolves folder spellings.
  - `Trajectories` holds fingerprints, similarities and assistant cells.
  - `ScoreCriteria` (1–3), `ContentCriteria` (4–5), `RunCriteria` (6–8), `CountCriteria` (9–10) and `UnrequiredFiles` (11) each give a criterion as a specification function. Each criterion also has a method with the source's loops, proved equal to its function, and lemmas stating when the criterion passes.
  - `Analysis` assembles the report.
  - `Comparison` and `Screenshots` model `getTrajectoryComparisonData` and `getScreenshotPath`.
- **The comparison view and the screenshot viewer** (`js/main.js`).
  - `ComparisonView` covers cell quality, the similarity-matrix key and the marking of identical steps.
  - `ScreenshotView` covers the navigation state `currentScreenshotData`. It is a class whose `Show`, `Load`, `Navigate` and `Toggle` methods keep the viewer's invariant.

Everything the browser supplies is a parameter:

- `Inputs.Env` holds the text of a file, `JSON.parse` (one abstract parser per use), `parseFloat`, which gives a number or NaN, and the SHA-256 digest.
- The file reader's result is an argument of the read methods.
- The viewer's `getScreenshotPath` is a function parameter, `ScreenshotView.Fetch`.

## Model

| member | source | states |
|---|---|---|
| FileTree.IndexOfName | js/fileManager.js:48 | the position of the first entry carrying a name, -1 exactly when no entry carries it (the property lookup `current[part]`) |
| FileTree.Put | js/fileManager.js:56 | after `current[name] = n` the name maps to `n` and every other name is unchanged; an existing key keeps its position and a new key goes last, as JS insertion order does |
| FileTree.DetectRoot | js/fileManager.js:22-31 | the root folder name is non-empty exactly when there is a first file with a relative path of more than one segment, and it is then that path's first segment |
| FileTree.StripRoot | js/fileManager.js:39-42 | the root name is dropped exactly when it is non-empty and equals the first segment; otherwise the parts are kept |
| FileTree.KeyPath | js/fileManager.js:36-55 | every file is stored under a non-empty key path with no empty key and no `/` in a key; a path that strips to nothing is stored under `undefined` |
| FileTree.MatchesPattern | js/fileManager.js:126-137 | a pattern equal to the name matches it; `*.ext` matches exactly the names ending in `.ext`, case-sensitively; a pattern without `*` matches only itself |
| FileTree.FilesMatching | js/fileManager.js:102-114 | a file is in the result exactly when it is listed under a name the pattern matches |
| FileTree.ListedFiles | js/fileManager.js:117 | `results.map(r => r.file)`: one file per listed entry, in listing order |
| FileTree.CountWithExtension | js/fileManager.js:252-262 | the count never exceeds the number of files listed |
| FileManager.CachedRead | js/fileManager.js:147-158 | a non-empty cached value is returned unchanged with the cache; otherwise the reader's content is stored under the key and returned; every other key is unchanged |
| FileManager.Records | js/fileManager.js:190-205 | a JSON-lines text yields at most one record per line |
| FileManager.LineRecord | js/fileManager.js:194-202 | one line yields at most one record |
| FileManager.RecordsOfLine | js/fileManager.js:193-203 | the records of a single line are that line's record |
| FileManager.RecordsConcat | js/fileManager.js:193-203 | the records of two blocks of lines are the records of the first block followed by those of the second: file order is kept |
| FileManager.LineRecordKept | js/fileManager.js:194-198 | a line yields a record only if it is non-blank after trimming and the record is the parse of the trimmed line |
| FileManager.LineWithoutRecordSkipped | js/fileManager.js:195-202 | a blank or unparsable line is skipped and leaves every record around it in place |
| FileManager.RecordsFromLines | js/fileManager.js:193-203 | every record is the parse of some non-blank trimmed line |
| FileManager.ParseLines | js/fileManager.js:193-203 | the line loop of `readFileAsJSONL` yields exactly `Records` of the lines |
| FileManager.CollidingReadsAsWritten | js/fileManager.js:147 | two different files with the same name, size and time stamp share one cache entry, so the second read returns the first file's text |
| FileManager.IdentityRead | js/fileManager.js:147-158 | a read through a cache keyed by the file itself stores and returns that file's value and leaves other files' entries alone |
| FileManager.IdentityReadsFaithful | js/fileManager.js:147-158 | with an identity-keyed cache that starts consistent, every read of a sequence of files returns that file's own text |
| FileManager.FileManager.constructor | js/fileManager.js:4-6 | the tree, the cache and the root name start empty |
| FileManager.FileManager.BuildFileTree | js/fileManager.js:13-60 | the tree is rebuilt from nothing as `BuildTree(files)`, the cache is emptied and the root name is `DetectRoot(files)`, so nothing from a previous folder survives |
| FileManager.FileManager.GetFileFromTree | js/fileManager.js:67-80 | the walk over the segments returns `FileTree.GetFileFromTree`: the File at the path, none for a missing path or a directory |
| FileManager.FileManager.NavigateToDir | js/fileManager.js:90-99 | the navigation loop of the directory queries yields the directory at the segments, none as soon as a segment is missing or a file |
| FileManager.FileManager.DirectoryExists | js/fileManager.js:305-320 | the loop returns `FileTree.DirectoryExists` |
| FileManager.FileManager.FindFilesInTree | js/fileManager.js:88-118 | the navigation plus `searchDir` returns `FileTree.FindFilesInTree`: [] for a missing start or a file, else the matching files of the subtree in listing order |
| FileManager.FileManager.CountFilesByExtension | js/fileManager.js:239-266 | the navigation plus `countInDir` returns `FileTree.CountFilesByExtension`: 0 for a missing directory |
| FileManager.FileManager.GetAllFilesInDir | js/fileManager.js:273-298 | the navigation plus `collectFiles` returns every file below the directory in listing order |
| FileManager.FileManager.GetSubdirectories | js/fileManager.js:327-347 | the entries of the directory that are not files, in entry order |
| FileManager.FileManager.GetAllFilesWithPaths | js/fileManager.js:353-370 | every file of the tree with its slash-joined path, depth first |
| FileManager.FileManager.ReadFileAsText | js/fileManager.js:144-162 | null for no file; otherwise the value and the new cache are `CachedRead` under the `text:` key; the tree and root are unchanged |
| FileManager.FileManager.ReadFileAsDataURL | js/fileManager.js:213-231 | the same under the `dataurl:` key |
| FileManager.FileManager.ReadFileAsJSON | js/fileManager.js:169-179 | null for no file and for an empty text, else the parse of the text |
| FileManager.FileManager.ReadFileAsJSONL | js/fileManager.js:186-206 | [] for no file or an empty text, else the records of the lines split at `\n` |
| FileManager.FileManager.ClearCache | js/fileManager.js:388 | the cache becomes empty and nothing else changes |
| FileManager.SearchDir | js/fileManager.js:102-114 | the recursive search returns the files of the listing whose names match, in order |
| FileManager.CountInDir | js/fileManager.js:252-262 | the recursive count equals the number of listed files with the extension |
| FileManager.TraverseTree | js/fileManager.js:356-366 | the recursive traversal returns the listing with paths built from the prefix |
| FileManager.BuildStep | js/fileManager.js:34-57 | one more pass of the build loop inserts the next file under its key path |
| FileManager.LookupFirst | js/fileManager.js:71-77 | one step of the lookup loop: a missing key ends it with null, otherwise it goes on below that key |
| FileManager.ListingCountIgnoresPrefix | js/fileManager.js:252-262 | the extension count does not depend on the path prefix |
| FileTreeFacts.LookupInsertSame | js/fileManager.js:45-56 | a file stored at a key path is found again at that key path |
| FileTreeFacts.LookupInsertDiverge | js/fileManager.js:45-56 | storing a file at one path leaves every path unchanged that neither contains it nor extends it |
| FileTreeFacts.FileKeptBelow | js/fileManager.js:46-51 | a file survives a later file stored below it (the later path runs through the File object's properties) |
| FileTreeFacts.AncestorFileHides | js/fileManager.js:56 | a file stored at a proper prefix of a path hides whatever was at the path |
| FileTreeFacts.NoNewFileElsewhere | js/fileManager.js:45-56 | storing a file creates no file at any other path |
| FileTreeFacts.InsertMakesDirs | js/fileManager.js:46-51 | storing a file makes each proper prefix of its path a directory, unless a file sat on one of them |
| FileTreeFacts.DirKept | js/fileManager.js:45-56 | a directory stays a directory when a file is stored at a path that is not a prefix of it |
| FileTreeFacts.BuildNoStrayFiles | js/fileManager.js:34-57 | after a build, files appear only at paths some input was stored under |
| FileTreeFacts.BuildLastFileWins | js/fileManager.js:34-57 | the file at a path after a build is the last input stored there, when no later input sits at or above that path |
| FileTreeFacts.BuildMakesDirs | js/fileManager.js:34-57 | after a build every directory prefix of an input's path is a directory, when no input was stored at or above it |
| FileTreeFacts.RootExists | js/fileManager.js:305-320 | `directoryExists` holds for the empty path |
| FileTreeFacts.BuildThenGetFile | js/fileManager.js:45-80 | `getFileFromTree` on a loaded path returns the last file loaded there, when no later file sits at or above it |
| FileTreeFacts.BuildThenDirectoryExists | js/fileManager.js:45-56 | every folder on a loaded file's path satisfies `directoryExists`, when no file was loaded at or above it |
| FileTreeFacts.BuildGetFileMissing | js/fileManager.js:67-80 | `getFileFromTree` is null on any path no file was loaded under |
| FileTreeFacts.DirAtPrefix | js/fileManager.js:305-320 | folders are prefix-closed: every folder above an existing folder exists |
| FileTreeQueries.PutWellFormed | js/fileManager.js:56 | setting a non-empty, slash-free key keeps a tree well-formed |
| FileTreeQueries.InsertWellFormed | js/fileManager.js:45-56 | storing a file under a valid key path keeps a tree well-formed |
| FileTreeQueries.BuildWellFormed | js/fileManager.js:13-60 | `buildFileTree` only produces well-formed trees: in every directory object the keys are distinct, non-empty and slash-free |
| FileTreeQueries.SegmentsOfChildPath | js/fileManager.js:358 | the segments of `${prefix}/${name}` are those of the prefix followed by the name |
| FileTreeQueries.ListingLeadsToFile | js/fileManager.js:356-366 | every entry of a listing names a file reachable at its path |
| FileTreeQueries.AllFilesWithPathsResolve | js/fileManager.js:353-370 | every path `getAllFilesWithPaths` reports resolves, through `getFileFromTree`, to the file reported with it |
| FileTreeQueries.DirNamesAreDirs | js/fileManager.js:339-344 | every name the subdirectory scan keeps names a directory entry |
| FileTreeQueries.SubdirectoriesExist | js/fileManager.js:327-347 | every name `getSubdirectories(dirPath)` returns satisfies `directoryExists(dirPath/name)` |
| FileTreeQueries.ListingIgnoresPrefix | js/fileManager.js:356-366 | the prefix changes only the paths of a listing, never its files or names |
| FileTreeQueries.CountDisjoint | js/fileManager.js:255 | two extensions neither of which ends the other never count the same file |
| FileTreeQueries.ExtensionCountsDisjoint | js/fileManager.js:239-266 | the counts of two such extensions in one folder together never exceed the number of files in it |
| FileTreeQueries.FindWithinCount | js/fileManager.js:88-137 | a case-sensitive `*.ext` search never finds more files than the case-insensitive extension count of the same folder |
| Actions.SkipSpaces | js/utils.js:25 | the end of the maximal run of white space from a position (`\s*`): everything skipped is space and the next character is not |
| Actions.NumeralRunEnd | js/utils.js:111 | the end of the maximal run of digits and dots (`[\d.]+`) |
| Actions.PrefixEnd | js/utils.js:25 | the call name starts after `pg.` or `pyautogui.` exactly when one of the two occurs at the position |
| Actions.TwoNumbers | js/utils.js:25 | `(\d+)\s*,\s*(\d+)` captures two non-empty digit strings |
| Actions.ButtonGroup | js/utils.js:25 | the optional `button='…'` group captures a non-empty word |
| Actions.LazyUntil | js/utils.js:69 | a lazy `(.+?)` stops at the first position where its continuation matches, and crosses no line terminator before it |
| Actions.NonQuoteRunEnd | js/utils.js:81 | the end of the maximal run of non-quote characters (`[^'"]+`) |
| Actions.HotkeyKeys | js/utils.js:81-82 | every key taken from the hotkey argument text is non-empty and holds no quote, the quotes having been removed |
| Actions.WriteClose | js/utils.js:87 | the text of `write` is closed by the first later occurrence of the same quote that is followed by `)` or by further arguments; no earlier such quote exists, and none exists at all when there is no match |
| Actions.FirstMatch | js/utils.js:26 | `String.match` succeeds exactly when the pattern matches at some position, and then gives the groups of the leftmost such position |
| Actions.ClickType | js/utils.js:33-37 | a member of the click family is always one of click, double click, triple click and right click |
| Actions.ClickRule | js/utils.js:25-42 | the click rule applies exactly when the click pattern occurs; its record keeps the raw text, has fields agreeing with its type and is of the click family |
| Actions.PointerRule | js/utils.js:45-66 | the mouseDown, moveTo and mouseUp rules give a mouse-down, move or mouse-up record with agreeing fields, and give nothing exactly when none of the three patterns occurs |
| Actions.KeyRule | js/utils.js:69-84 | the press and hotkey rules give a press or hotkey record with agreeing fields (a press carries exactly one key), and nothing exactly when neither pattern occurs |
| Actions.TextRule | js/utils.js:87-100 | write and typewrite both give a `write` record carrying its text, and nothing exactly when neither pattern occurs |
| Actions.WaitRule | js/utils.js:103-120 | scroll and time.sleep give a scroll record with an amount or a sleep record with a duration, and nothing exactly when neither pattern occurs |
| Actions.ParsePyautoguiAction | js/utils.js:8-123 | the raw text is always kept; the fields set are exactly those of the action type (coordinates only for the click family, mouseDown and moveTo, keys only for press and hotkey, one key for press); the empty text gives the unknown record; the click rule wins whenever it matches; the type is unknown exactly when the text is empty or no rule matches |
| ActionFacts.SkipSpacesAt | js/utils.js:25 | white space skipping stops at the first non-space character |
| ActionFacts.LazyUntilStops | js/utils.js:69 | a lazy group ends at the first position where its continuation holds, if no line terminator comes before it |
| ActionFacts.WriteCloseStops | js/utils.js:87-92 | the text of a write ends at the first same quote followed by a valid tail: later arguments are ignored |
| ActionFacts.FirstMatchAtStart | js/utils.js:26 | a pattern that matches at position 0 is matched there |
| ActionFacts.FirstMatchNowhere | js/utils.js:26 | a pattern that matches at no position gives no match |
| ActionFacts.NoPrefixNoCall | js/utils.js:25-108 | where neither `pg.` nor `pyautogui.` starts, none of the nine prefixed patterns matches |
| ActionFacts.WithoutPrefixAtMostSleep | js/utils.js:25-122 | a text holding neither prefix is parsed as unknown or as sleep, and as sleep exactly when it is non-empty and the sleep pattern occurs: only `time.sleep` needs no prefix |
| ActionFacts.OccursChars | js/utils.js:25 | an occurrence of a literal agrees with it character by character |
| ActionFacts.OccursFromChars | js/utils.js:25 | agreeing character by character is an occurrence |
| ActionFacts.PrefixLetters | js/utils.js:25 | `pyautogui.` holds no further `p` after its first letter and no dot before its last |
| ActionFacts.OnlyPrefixAtStart | js/utils.js:25 | in a call whose text after the prefix holds no dot, the prefix is found at position 0 and nowhere else |
| ActionFacts.DigitsReadBack | js/utils.js:25 | a digit string followed by a non-digit is read whole by `\d+` |
| ActionFacts.TwoNumbersReadBack | js/utils.js:25 | `X, Y` written as two numerals is read back as exactly those numerals |
| ActionFacts.PointCallLayout | js/utils.js:25 | the text `pyautogui.name(X, Y)` has the prefix, the name, `(`, the numerals and `)` at the positions used by the other lemmas |
| ActionFacts.PointCallPrefix | js/utils.js:25 | in such a call with a dot-free name the prefix is found exactly at position 0 |
| ActionFacts.PointCallName | js/utils.js:25 | the name written decides which `name(` occurs after the prefix; a name with another first letter does not occur there |
| ActionFacts.PointCallOtherName | js/utils.js:25-60 | a name differing from the written one at some position does not occur after the prefix |
| ActionFacts.PointCallArgs | js/utils.js:25-60 | the numerals of a written call are read back and followed by `)` |
| ActionFacts.NumeralValueOf | js/utils.js:29-30 | `parseInt` of the decimal text of a number gives that number |
| ActionFacts.ClickKindOfCall | js/utils.js:25 | the name alternation of the click pattern picks the name the click was written with |
| ActionFacts.ClickAtParts | js/utils.js:25 | the click pattern matches where a prefix, a click name, two numerals and `)` follow each other, capturing them and no button |
| ActionFacts.ClickAtClickCall | js/utils.js:25 | a written click is matched at its start with its name and both numerals |
| ActionFacts.ClickRoundTrip | js/utils.js:25-41 | `pyautogui.click(x, y)` and its double, triple and right variants are parsed back with their type and both coordinates |
| ActionFacts.ParsedClick | js/utils.js:26-41 | a text the click pattern matches is parsed into the record built from that match: type from name and button, coordinates by `parseInt`, nothing else set |
| ActionFacts.NoClickInPointCall | js/utils.js:25 | a call whose name starts with a letter other than c, d, t and r is matched by no click pattern |
| ActionFacts.PointCallAtParts | js/utils.js:45-60 | the pattern for `name(X, Y)` matches where a prefix, that name, two numerals and `)` follow each other |
| ActionFacts.PointCallMatches | js/utils.js:45-60 | a written call with a dot-free name is matched by its own pattern at its start |
| ActionFacts.PointCallAtNowhere | js/utils.js:45-60 | the pattern for a name matches nowhere in a call whose prefix is not followed by that name |
| ActionFacts.MouseDownRoundTrip | js/utils.js:45-51 | `pyautogui.mouseDown(x, y)` is parsed back as a mouse-down at (x, y) |
| ActionFacts.MouseDownCallMatches | js/utils.js:25-51 | a written mouseDown call matches no click pattern and matches the mouseDown pattern with its numerals |
| ActionFacts.NoMouseDownInMoveTo | js/utils.js:45-60 | a moveTo call contains no mouseDown match anywhere |
| ActionFacts.NoMouseDownInMoveToText | js/utils.js:45-60 | the same for any text laid out as a moveTo call |
| ActionFacts.MoveToRoundTrip | js/utils.js:54-60 | `pyautogui.moveTo(x, y)` is parsed back as a move to (x, y), the click and mouseDown rules before it not applying |
| ActionFacts.MoveToCallMatches | js/utils.js:25-60 | a written moveTo call matches neither the click nor the mouseDown pattern, and matches its own with its numerals |
| ActionFacts.ScrollKeepsSign | js/utils.js:103-108 | a scroll match captures `-` followed by digits or digits alone, so the amount is minus the digits' value or the digits' value: the sign written is kept |
| ActionFacts.NonQuoteRunEndShift | js/utils.js:81 | the end of a non-quote run depends only on the text from its start |
| ActionFacts.HotkeyKeysShift | js/utils.js:81-82 | the keys found from a position depend only on the text from that position |
| ActionFacts.FirstQuotedKey | js/utils.js:81 | the closing quote of a quoted key ends the non-quote run after its opening quote |
| ActionFacts.QuotedKeyFirst | js/utils.js:81-82 | a leading quoted key is the first key found, and the search resumes after its closing quote |
| ActionFacts.SeparatorSkipped | js/utils.js:81-82 | the `, ` between keys yields no key |
| ActionFacts.HotkeyKeysInOrder | js/utils.js:77-84 | the argument text `'k1', 'k2', …` yields exactly the keys k1, k2, … in the order written |
| ActionFacts.WordRunEndAt | js/utils.js:25 | `\w+` run from a position ends at the first non-word character |
| ActionFacts.OccursAtStart | js/utils.js:25 | a text occurs at the start of any text it begins |
| ActionFacts.OccursAtEnd | js/utils.js:25 | a text occurs right after whatever it is appended to |
| ActionFacts.OccursWithin | js/utils.js:25 | an occurrence inside an occurrence is an occurrence at the summed position |
| ActionFacts.CallHeadOfPieces | js/utils.js:25 | a call built piece by piece has each piece at its position in the whole call |
| ActionFacts.CallHeadLayout | js/utils.js:25 | the text `pyautogui.name(X, Y` followed by any tail has prefix, name, `(`, numerals, `, ` and tail at fixed positions |
| ActionFacts.ButtonTailChars | js/utils.js:25 | `, button='b')` has its comma, keyword, `=`, quotes, the button and `)` at fixed positions |
| ActionFacts.ButtonGroupAt | js/utils.js:25 | the optional button group matches `, button='b'` with b a non-empty word, captures b and is followed by `)` |
| ActionFacts.ButtonTailAt | js/utils.js:25 | a button tail written after the numerals of a call puts its characters at the matching positions of the call |
| ActionFacts.ButtonClickAtParts | js/utils.js:25 | the click pattern matches where a prefix, a click name, two numerals, a button group and `)` follow each other, capturing the button |
| ActionFacts.CallHeadPrefix | js/utils.js:25 | in a written call the prefix ends at position 10 |
| ActionFacts.CallHeadClickKind | js/utils.js:25 | the click name a call is written with is the one the name alternation picks |
| ActionFacts.CallHeadNumbers | js/utils.js:25 | the numerals of a written call are read back when a non-digit follows them |
| ActionFacts.ButtonClickAtText | js/utils.js:25 | a text laid out as a click with a button argument is matched at its start, capturing name, numerals and button |
| ActionFacts.ButtonClickAt | js/utils.js:25 | `pyautogui.name(X, Y, button='b')` is matched at its start with all four captures |
| ActionFacts.ButtonClickRoundTrip | js/utils.js:25-41 | `pyautogui.click(x, y, button='b')` and its double, triple and right variants are parsed back with both coordinates and the type the name and button decide |
| ActionFacts.RightButtonClick | js/utils.js:31-37 | `click(x, y, button='b')` is a right click exactly when b is `right`, and a plain click otherwise, with both coordinates |
| Text.Split | js/fileManager.js:25 | `split` on one character gives at least one part, none holding the separator |
| Text.NonEmptyParts | js/fileManager.js:25 | `filter(p => p)` keeps exactly the non-empty parts |
| Text.Segments | js/fileManager.js:25-36 | the segments of a path are non-empty and hold no `/` |
| Text.SplitNoSeparator | js/fileManager.js:25 | a text without the separator splits into itself |
| Text.SplitConcat | js/fileManager.js:25 | splitting around one separator splits both sides independently |
| Text.NonEmptyPartsConcat | js/fileManager.js:25 | filtering distributes over concatenation |
| Text.SegmentsConcat | js/fileManager.js:67-80 | a path built as `${a}/${b}` has the segments of `a` followed by those of `b` |
| Text.SegmentsOfName | js/fileManager.js:67-80 | a non-empty name without `/` is one segment |
| Text.SegmentsOfEmpty | js/fileManager.js:67-80 | the empty path has no segment |
| Text.SegmentsOfJoin | js/fileManager.js:36-55 | joining segments with `/` and splitting again gives them back |
| Text.CollapseSlashes | js/utils.js:196-197 | `replace(/\/+/g, '/')` never lengthens a path |
| Text.CollapseSlashesParts | js/utils.js:196-197 | collapsing keeps the first part and the non-empty later parts of a split |
| Text.SegmentsOfCollapsed | js/utils.js:196-197 | collapsing slashes does not change a path's segments |
| Text.IndexOfFrom | js/utils.js:26 | `indexOf` from a position: the first occurrence at or after it, or -1 exactly when there is none |
| Text.LastIndexOf | js/analyzer.js:868-876 | `lastIndexOf` gives the last position holding the character, or -1 exactly when it does not occur |
| Text.FromLastDot | js/analyzer.js:868-876 | the text from the last dot is a suffix starting with the only dot it holds, when there is a dot |
| Text.Lower | js/utils.js:135-139 | lower-casing maps each character on its own: `A`–`Z` and the Kelvin sign to lower case, all others unchanged; in this character-wise model the length is kept |
| Text.TrimStart | js/fileManager.js:194 | what is removed is white space and what remains starts with none |
| Text.TrimEnd | js/fileManager.js:194 | what is removed is white space and what remains ends with none |
| Text.TrimEmptyIffBlank | js/fileManager.js:194-195 | a line trims to nothing exactly when it is all white space |
| Text.WordCountBound | js/analyzer.js:59 | a text has no more words than characters |
| Text.NatToString | js/analyzer.js:510 | the decimal text of a number is a non-empty digit string whose value is that number |
| Text.PadZero | js/analyzer.js:129 | `padStart` gives the requested width or more, ending in the original text |
| Text.DigitRunEnd | js/utils.js:25 | a greedy `\d+` stops at the first non-digit |
| Text.DigitRunEndAt | js/utils.js:25 | wherever a digit run sits, it is stopped by its first non-digit |
| Text.ParseDecimal | js/utils.js:115 | `parseFloat` of a text of digits and dots is a number when it starts with a digit, the value of the digits when it is all digits, and NaN when no digit prefix can be read |
| Inputs.ReadJSON | js/fileManager.js:169-179 | an empty text gives null; any other text gives what the JSON parser makes of it, null when it fails |
| Locators.WithoutSchema | js/utils.js:135 | a file is kept exactly when it was found and its lower-cased name does not mention `schema`; the first kept file comes after schema files only |
| Locators.LowerKeepsJsonSuffix | js/utils.js:135-139 | lower-casing keeps a `.json` suffix |
| Locators.TaskIdOf | js/utils.js:139-143 | the task id is the file name minus a trailing `.json`, or the whole name when there is no such suffix in any case |
| Locators.FindTaskJSON | js/utils.js:130-147 | null exactly when every `.json` file found is a schema file; otherwise the first non-schema file in search order, with its task id |
| Locators.ModelName | js/utils.js:154-164 | the model name is given exactly when the task data has a non-empty `model_pass_rate`, and is its first key |
| Locators.FindTrajectoryFile | js/utils.js:171-185 | a file is found exactly when a `trajectory.jsonl` or a `traj.jsonl` is found; the first `trajectory.jsonl` is preferred |
| Locators.FoundIffListed | js/fileManager.js:88-118 | a search for a literal name finds exactly the files listed under that name |
| Locators.TrajectoryFilePreference | js/utils.js:171-185 | the file found is listed under one of the two names; when a `trajectory.jsonl` is listed one is found; when neither is listed nothing is |
| Locators.FirstFileAt | js/utils.js:200-205 | the first candidate path naming a file, every earlier one naming none; nothing exactly when none names a file |
| Locators.CollapsedLookup | js/utils.js:196-197 | collapsing slashes in a candidate path does not change the file it names |
| Locators.DirectScoreCandidates | js/utils.js:195-205 | the direct candidates are tried in order: in the folder, then in its task-id subfolder for a non-empty task id |
| Locators.EvaluationScoreOrder | js/utils.js:193-214 | the score file is the folder's own `evaluation_score.txt`, else the task-id subfolder's, else the first found anywhere below, else none |
| Locators.CountPNGXMLFiles | js/utils.js:221-226 | the two counts are the extension counts and together never exceed the number of files below |
| Locators.ParseEvaluationScore | js/utils.js:233-241 | null exactly for the empty text, otherwise `parseFloat` of the trimmed text |
| Folders.ValueOf | js/analyzer.js:169-172 | reading `obj[key]` gives a value stored under the key, and nothing exactly when no entry carries the key |
| Folders.ValueOfConcat | js/analyzer.js:164-172 | a property of entries added later is found only when the earlier entries do not carry it |
| Folders.CollectSnoc | js/analyzer.js:123-150 | one more index of a scan appends that index's entries at the end |
| Folders.CollectMember | js/analyzer.js:123-150 | an entry is collected exactly when one of the scanned indices contributes it |
| Folders.CollectLengthSum | js/analyzer.js:123-150 | per-index entry counts that add up add up over the whole scan |
| Folders.CollectLengthLe | js/analyzer.js:123-150 | per-index bounds on entry counts hold for the whole scan |
| Folders.FirstWhere | js/analyzer.js:124-149 | the index of the first candidate passing the test, every earlier one failing; nothing exactly when all fail |
| Folders.FindFirst | js/analyzer.js:124-149 | the candidate loop with `break` finds exactly that first passing candidate |
| Folders.FirstWhereIsFirst | js/analyzer.js:124-149 | the first passing candidate is determined by the tests alone |
| Folders.ResolveAnnotatorRoot | js/analyzer.js:111-119 | the root-resolution prologue yields the annotator root of the folder |
| Folders.AnnotatorRootChoice | js/analyzer.js:111-119 | the root is `Annotator Trajectory` when it exists, else the first existing alternative spelling in order, else `Annotator Trajectory` |
| Folders.Variants | js/analyzer.js:124-130 | five spellings are tried for each annotator |
| Folders.SftKeyNotAnnotatorKey | js/analyzer.js:164-172 | SFT's key is never an annotator's key, so their entries never overwrite each other |
| Folders.AnnotatorFolder | js/analyzer.js:124-149 | the folder of an annotator is the first spelling that passes the test, every earlier one failing; none when all fail |
| Folders.FindAnnotatorFolder | js/analyzer.js:124-149 | the variant loop finds exactly that folder |
| Folders.RunFolder | js/analyzer.js:510-528 | a run is the first of `run_NN` and `run_N` that exists under the model folder; none when neither does |
| Folders.FindRunFolder | js/analyzer.js:510-528 | the run-name loop finds exactly that folder |
| Folders.RunTrajectoryDir | js/analyzer.js:513-516 | a run's trajectory folder is its `Trajectory and Screenshot` subfolder if that exists, else the run folder itself |
| Folders.RunScanNext | js/analyzer.js:509-529 | one more run of the scan over runs 1 to 16 appends its entries at the end |
| Folders.RunScanStep | js/analyzer.js:509-529 | a loop step appending the next run's entries keeps the accumulator equal to the scan so far |
| Folders.RunScanMember | js/analyzer.js:509-529 | an entry is collected exactly when one of the runs scanned contributes it |
| Folders.RunScanLengthSum | js/analyzer.js:509-529 | per-run entry counts that add up add up over the scan |
| Folders.RunScanLengthLe | js/analyzer.js:509-529 | per-run bounds on entry counts hold over the scan |
| Folders.RunScanAtMostOne | js/analyzer.js:509-529 | runs contributing at most one entry each give at most one entry per run |
| Trajectories.Prefix | js/analyzer.js:23 | `substring(0, n)` gives a prefix of at most `n` characters, exactly `n` when the text is long enough |
| Trajectories.Hash | js/analyzer.js:8-23 | no hash exactly for an empty trajectory; otherwise at most 32 characters starting the digest of the action string |
| Trajectories.TrimmedActionsConcat | js/analyzer.js:11 | the trimmed actions of two step lists are those of the first followed by those of the second |
| Trajectories.TrimmedActionsOfBlank | js/analyzer.js:11 | a step with a blank action contributes an empty trimmed action in its place |
| Trajectories.NonEmptyPartsDropEmpty | js/analyzer.js:11 | `filter(Boolean)` drops an empty action wherever it sits |
| Trajectories.NonEmptyPartsOfBlank | js/analyzer.js:11 | a lone empty action leaves nothing |
| Trajectories.BlankStepIgnored | js/analyzer.js:8-23 | removing a step whose action is blank from a non-empty trajectory changes neither its action string nor its hash |
| Trajectories.HashOfSameActions | js/analyzer.js:8-23 | two non-empty trajectories whose non-blank trimmed actions agree have the same hash |
| Trajectories.AlignedMatches | js/analyzer.js:468 | the count of equal actions at the same position never exceeds the positions compared |
| Trajectories.AlignedMatchesSymmetric | js/analyzer.js:468 | the count does not depend on which list comes first |
| Trajectories.AlignedMatchesAll | js/analyzer.js:468 | every position matches exactly when the lists agree there (on non-empty actions, when empties are ignored) |
| Trajectories.AlignedMatchesNonEmpty | js/analyzer.js:1210 | ignoring empty actions can only lower the count, and changes nothing when no action is empty |
| Trajectories.RatioTimes | js/analyzer.js:470-471 | `common / maxLen` times `maxLen` is `common` |
| Trajectories.RatioMonotone | js/analyzer.js:470-471 | more common actions give a higher ratio |
| Trajectories.RatioBounds | js/analyzer.js:469-471 | the ratio lies in [0, 1] and is 1 exactly when every compared position matches |
| Trajectories.SimilarityFacts | js/analyzer.js:466-471 | the duplicate check's similarity is symmetric, lies in [0, 1], is 0 for two empty lists and is 1 exactly for two equal non-empty lists |
| Trajectories.ComparisonSimilarityFacts | js/analyzer.js:1207-1213 | the comparison view's similarity is symmetric, lies in [0, 1], never exceeds the duplicate check's, and equals it when the first list has no empty action |
| Trajectories.RemoveFirst | js/analyzer.js:52 | `replace` with a string removes only the first occurrence, and nothing when there is none |
| Trajectories.AssistantCells | js/analyzer.js:39-63 | there are no more assistant records than cells |
| Trajectories.CellsWhere | js/analyzer.js:39-63 | there are no more selected records than cells |
| Trajectories.AssistantCellsStep | js/analyzer.js:50-62 | one more cell adds a record, numbered by the records so far, exactly when it is an assistant cell |
| Trajectories.DescribesPrefix | js/analyzer.js:39-63 | a record of a cell among the first cells is a record of that cell in the whole notebook |
| Trajectories.CellsWhereNumbered | js/analyzer.js:53-62 | the selected records are numbered 0, 1, 2, … and each describes a selected cell |
| Trajectories.CellsWhereOrdered | js/analyzer.js:39-62 | the selected records keep the cell order |
| Trajectories.CellsWhereComplete | js/analyzer.js:39-62 | every selected cell has a record |
| Trajectories.AssistantCellsNumbered | js/analyzer.js:53-62 | each record describes an assistant cell of the notebook, and the records are numbered 0, 1, 2, … in order |
| Trajectories.AssistantCellsOrdered | js/analyzer.js:39-62 | the records' cell indices strictly increase |
| Trajectories.AssistantCellsComplete | js/analyzer.js:50-51 | every cell whose text starts, after leading white space, with `**[assistant]` has a record |
| Trajectories.DescribedCell | js/analyzer.js:50-60 | a record holds its cell's content without the marker, trimmed, and that content's word count |
| Trajectories.ExtractAssistantCells | js/analyzer.js:39-63 | the loop over the cells, counting `stepNum`, yields exactly the assistant records of the cell texts |
| Trajectories.ExtractNotebookAssistantCells | js/analyzer.js:30-67 | the records are those of the cells of the notebook as read, none when it does not parse |
| Comparison.EntityKeysAreScanKeys | js/analyzer.js:1126-1136 | the four entity names are the keys the scans store data under |
| Comparison.Rank | js/analyzer.js:1126-1136 | the position of a key among the four entities, below 4 exactly for an entity name |
| Comparison.ActionsEntry | js/analyzer.js:1143-1150 | a folder contributes at most one entry, under its key, and one exactly when a trajectory file is found |
| Comparison.AnnotatorActions | js/analyzer.js:1170-1200 | an annotator contributes at most one entry, under its own key |
| Comparison.RowSimilaritiesMember | js/analyzer.js:1206-1214 | the inner loop records exactly the pairs of trajectory `i` with later ones |
| Comparison.AllSimilaritiesMember | js/analyzer.js:1204-1215 | the first rows of the outer loop record exactly the pairs starting in them |
| Comparison.SimilaritiesRecorded | js/analyzer.js:1204-1215 | a similarity is recorded exactly for each pair of trajectories, the earlier one first |
| Comparison.RankOfEntity | js/analyzer.js:1126-1136 | each entity's rank is its position |
| Comparison.CollectOrdered | js/analyzer.js:1170-1200 | a scan over increasing indices contributing entries of those ranks is in entity order |
| Comparison.OrderedConcat | js/analyzer.js:1139-1200 | ordered entries followed by ordered entries of higher rank are ordered |
| Comparison.AnnotatorKeyRank | js/analyzer.js:1187 | `annotator_N` has rank N |
| Comparison.ScanInEntityOrder | js/analyzer.js:1139-1200 | SFT's entry followed by at most one per annotator is in entity order and uses entity names only |
| Comparison.TrajectoriesInEntityOrder | js/analyzer.js:1139-1200 | the trajectories enter in entity order, SFT first and then the annotators by number, each at most once |
| Comparison.KeysDistinct | js/analyzer.js:1139-1200 | in entity order no key occurs twice |
| Comparison.PairKeyInjective | js/analyzer.js:1213 | a pair name `<first>_vs_<second>` determines both entities |
| Comparison.PairEntryNamed | js/analyzer.js:1204-1215 | the similarity named after two trajectories is their pair's, the earlier one first |
| Comparison.UnnamedPair | js/analyzer.js:1204-1215 | no similarity is named after entities that never occur as an earlier and a later trajectory |
| Comparison.PairFound | js/analyzer.js:1204-1215 | for two trajectories found, the similarity stored under their pair name is the similarity of their actions |
| Comparison.PairMissing | js/analyzer.js:1204-1215 | when one of two entities has no trajectory, nothing is stored under their pair name |
| Comparison.KeyAbsent | js/analyzer.js:1213 | a key no entry carries reads nothing |
| Comparison.PairLookup | js/analyzer.js:1204-1215 | for two entities in entity order, the similarity stored under their pair name is that of their actions when both trajectories were found, and nothing otherwise |
| Comparison.ReversedPairAbsent | js/analyzer.js:1204-1215 | nothing is stored under a pair named in reverse entity order |
| Comparison.ScannedKey | js/analyzer.js:1170-1200 | an annotator's key reads back what its index contributed to a scan |
| Comparison.ColumnsRead | js/analyzer.js:1139-1200 | SFT's column holds the actions of its trajectory file when there is one; an annotator's column holds those of the trajectory file in its first existing folder's `Trajectory and Screenshot` folder |
| Comparison.SftThenAnnotators | js/analyzer.js:1139-1200 | after SFT's entries and an annotator scan, each key reads back its own part |
| Comparison.ScoresRead | js/analyzer.js:1131-1200 | every score slot is present: SFT's from the score-file locator, each annotator's from its folder's `evaluation_score.txt` |
| Comparison.ReadAnnotator | js/analyzer.js:1170-1200 | the variant loop for one annotator yields exactly its actions entry and score entry |
| Comparison.ScanAnnotators | js/analyzer.js:1170-1200 | the loop over annotators 1 to 3 yields the scans of their actions and scores |
| Comparison.CompareRow | js/analyzer.js:1206-1214 | the inner loop yields exactly the similarities of trajectory `i` with the later ones |
| Comparison.ComputeSimilarities | js/analyzer.js:1204-1215 | the two nested loops yield exactly the similarities of every pair |
| Comparison.GetTrajectoryComparisonData | js/analyzer.js:1124-1218 | the result is the comparison data the folder defines: columns, scores and similarities |
| ScoreCriteria.ScoreEntry | js/analyzer.js:140-146 | an annotator contributes at most one score, under its own key |
| ScoreCriteria.ReadAnnotatorSteps | js/analyzer.js:132-139 | the body of criterion 1's annotator loop yields exactly that annotator's step-count entry |
| ScoreCriteria.ReadAnnotatorScore | js/analyzer.js:140-146 | the body of the annotator loop of criteria 1 to 3 yields exactly that annotator's score entry |
| ScoreCriteria.ScanSteps | js/analyzer.js:123-150 | the annotator loop yields the scan of the step counts |
| ScoreCriteria.ScanScores | js/analyzer.js:123-150 | the annotator loop yields the scan of the scores |
| ScoreCriteria.AnnotatorScoresKeys | js/analyzer.js:123-150 | every recorded score belongs to a scanned annotator, under its key, and is the score read for it |
| ScoreCriteria.AnnotatorScoresNearOne | js/analyzer.js:166-174 | some recorded score is within 0.01 of 1 exactly when the score read for one of the annotators is |
| ScoreCriteria.MinValue | js/analyzer.js:190 | `Math.min` of the positive step counts is one of them and no greater than any |
| ScoreCriteria.PositivesMember | js/analyzer.js:165-174 | an annotator is a positive result exactly when its score is within 0.01 of 1 and its step count is known |
| ScoreCriteria.Criterion1DecisionPass | js/analyzer.js:160-191 | with no annotator keyed like SFT, the decision passes exactly when SFT's score is within 0.01 of 1 and no positive annotator has fewer steps than SFT |
| ScoreCriteria.AnnotatorScoresNotSft | js/analyzer.js:146-170 | no annotator score is stored under SFT's key |
| ScoreCriteria.Criterion1Pass | js/analyzer.js:75-202 | criterion 1 passes exactly when SFT has a trajectory and a score within 0.01 of 1, and no annotator with such a score and a known step count has fewer steps |
| ScoreCriteria.CollectPositives | js/analyzer.js:159-176 | the positive results are SFT's first, then each annotator's in the order its score was recorded |
| ScoreCriteria.CheckCriterion1 | js/analyzer.js:75-202 | `checkCriterion1SFTStepCount` yields exactly criterion 1's result on the folder |
| ScoreCriteria.DecideCriterion1 | js/analyzer.js:178-191 | the end of criterion 1 yields exactly the decision on the values read |
| ScoreCriteria.Criterion2Decision | js/analyzer.js:252-258 | the result keeps the scores read and passes exactly when SFT's score and some annotator's are within 0.01 of 1 |
| ScoreCriteria.Criterion2Pass | js/analyzer.js:205-262 | criterion 2 passes exactly when SFT's score is within 0.01 of 1 and, for some annotator, the first folder spelling holding a score file gives a score within 0.01 of 1 |
| ScoreCriteria.CheckCriterion2 | js/analyzer.js:205-262 | `checkCriterion2EvaluationScores` yields exactly criterion 2's result |
| ScoreCriteria.CheckCriterion3 | js/analyzer.js:267-317 | `checkCriterion3AnnotatorZeroScore` yields exactly criterion 3's result: the scores of annotators 2 and 3, each from the first folder spelling holding a score file, passing when one is within 0.01 of 0 |
| ScoreCriteria.AnnotatorKeyInjective | js/analyzer.js:245 | different annotators have different keys |
| ScoreCriteria.ScannedScore | js/analyzer.js:229-250 | after the scan, an annotator's score is listed exactly when it was scanned and a folder with a score file was found for it |
| ScoreCriteria.Criterion3AgreesWithCriterion2 | js/analyzer.js:284-303 | the scores criterion 3 reads for annotators 2 and 3 are those criterion 2 records for them |
| ContentCriteria.NotebookEntry | js/analyzer.js:331-339 | a `Colab` folder contributes a notebook exactly when it exists and holds an `*.ipynb`; it is the first one found, under the folder's key, with that file's cells |
| ContentCriteria.AnnotatorNotebook | js/analyzer.js:352-371 | an annotator's notebook is stored under its key with the cells of its own file |
| ContentCriteria.AssistantCellsWellWritten | js/analyzer.js:377-386 | a notebook's records hold no underwritten cell exactly when no assistant cell of the notebook has an underwritten description |
| ContentCriteria.RecordsWellWritten | js/analyzer.js:377-386 | the same holds for any records that describe the cells and miss none |
| ContentCriteria.Criterion4Pass | js/analyzer.js:322-394 | criterion 4 passes exactly when a notebook was found and, in every notebook found, each assistant cell mentioning "executing step" has at least 20 words |
| ContentCriteria.WellWrittenFromTexts | js/analyzer.js:377-386 | checking the records of the notebooks is checking the cells of their files |
| ContentCriteria.ScannedNotebook | js/analyzer.js:342-374 | every notebook of the annotator scan is under an annotator's key and holds its own file's cells |
| ContentCriteria.NotebookCellsOf | js/analyzer.js:331-374 | every notebook found holds the assistant cells of its own file |
| ContentCriteria.Criterion4SftNotebook | js/analyzer.js:331-339 | SFT's notebook is found exactly when `SFT/Colab` exists and holds an `*.ipynb`, and it comes first |
| ContentCriteria.CheckCells | js/analyzer.js:379-385 | the cell loop with `break` succeeds exactly when no cell is underwritten |
| ContentCriteria.CheckNotebooks | js/analyzer.js:377-387 | the `allGood` loop succeeds exactly when every notebook is well written |
| ContentCriteria.ReadNotebook | js/analyzer.js:331-339 | the notebook search in one folder yields exactly its notebook entry |
| ContentCriteria.ScanNotebooks | js/analyzer.js:352-374 | the annotator loop yields the scan of the notebooks |
| ContentCriteria.CheckCriterion4 | js/analyzer.js:322-394 | `checkCriterion4NotebookAssistantCells` yields exactly criterion 4's result |
| ContentCriteria.TrajectoryEntry | js/analyzer.js:410-419 | a folder contributes a trajectory exactly when a trajectory file is found and its hash is non-null; it is that file's, with its steps and its hash |
| ContentCriteria.AnnotatorTrajectory | js/analyzer.js:431-455 | an annotator contributes at most one trajectory, under its key and with the hash of its own steps |
| ContentCriteria.PairSimilarity | js/analyzer.js:463-472 | the recorded similarity lies in [0, 1]; it is 1 for equal hashes and the aligned-action ratio otherwise |
| ContentCriteria.NoDuplicatesBeforeNext | js/analyzer.js:459-478 | one more row of the loop keeps the pass exactly when that row has no duplicate |
| ContentCriteria.RowPairsMember | js/analyzer.js:461-477 | the inner loop records exactly the pairs of trajectory `i` with later ones |
| ContentCriteria.AllPairsHas | js/analyzer.js:459-478 | every pair of the rows done is recorded |
| ContentCriteria.AllPairsFrom | js/analyzer.js:459-478 | everything recorded is such a pair |
| ContentCriteria.AllPairsMember | js/analyzer.js:459-478 | a similarity is recorded exactly for the pairs of the rows done |
| ContentCriteria.PairsRecorded | js/analyzer.js:459-478 | once the loop is done, every pair `i < j` is recorded, and nothing else is |
| ContentCriteria.DuplicateIffHighSimilarity | js/analyzer.js:463-475 | a pair fails the check exactly when its recorded similarity exceeds 0.95 |
| ContentCriteria.Criterion5Pass | js/analyzer.js:399-483 | criterion 5 passes exactly when no recorded similarity exceeds 0.95, and then all trajectories found have distinct hashes |
| ContentCriteria.SameActionsFail | js/analyzer.js:457-466 | two trajectories whose actions trim to the same list make criterion 5 fail |
| ContentCriteria.ScannedTrajectory | js/analyzer.js:431-455 | every trajectory of the annotator scan carries the hash of its own steps |
| ContentCriteria.TrajectoryFacts | js/analyzer.js:410-455 | every trajectory found carries the hash of its own non-empty steps |
| ContentCriteria.ReadTrajectory | js/analyzer.js:410-419 | the trajectory search in one folder yields exactly its entry |
| ContentCriteria.ScanTrajectories | js/analyzer.js:431-455 | the annotator loop yields the scan of the trajectories |
| ContentCriteria.CompareRow | js/analyzer.js:461-477 | one row of the loop keeps the pass exactly when the row has no duplicate, and records that row's similarities |
| ContentCriteria.ComparePairs | js/analyzer.js:459-478 | the nested loops pass exactly when there are no duplicates, and record every pair's similarity |
| ContentCriteria.CheckCriterion5 | js/analyzer.js:399-483 | `checkCriterion5DuplicateDetection` yields exactly criterion 5's result |
| RunCriteria.RunScoreEntry | js/analyzer.js:518-524 | a run contributes at most one score, and only when it has a result file |
| RunCriteria.RunFolderEntry | js/analyzer.js:566-572 | a run contributes at most one folder to criterion 7's count |
| RunCriteria.RunResultEntry | js/analyzer.js:577-590 | a run contributes a result file to criterion 7's count exactly when it has one |
| RunCriteria.MissingEntry | js/analyzer.js:621-634 | a run contributes at most one missing name |
| RunCriteria.Sum | js/analyzer.js:532 | the sum of the scores is NaN exactly when one of them is NaN |
| RunCriteria.Average | js/analyzer.js:531-532 | there is an average exactly when some score was read, and it is NaN exactly when a score is NaN |
| RunCriteria.Criterion6Decision | js/analyzer.js:531-537 | the result keeps the scores and their average, and passes exactly when a score was read, none is NaN and their average is below 1 |
| RunCriteria.SumBelowCount | js/analyzer.js:532 | scores all below 1 sum to less than their number |
| RunCriteria.Criterion6Pass | js/analyzer.js:488-540 | criterion 6 passes exactly when the model's run folders were scanned, at least one score was read, none is NaN and their sum is below their number; in particular when every score read is below 1 |
| RunCriteria.DivBelowOne | js/analyzer.js:532-533 | an average is below 1 exactly when the sum is below the count |
| RunCriteria.Criterion6ScoreCount | js/analyzer.js:509-529 | no more scores are read than criterion 7 counts result files |
| RunCriteria.ReadRun | js/analyzer.js:510-528 | the body shared by the run loops finds the run's first existing name and the `result.txt` of its trajectory folder, or of the run folder when that folder is missing |
| RunCriteria.ReadRunScore | js/analyzer.js:510-528 | the body of criterion 6's run loop yields exactly that run's score entry |
| RunCriteria.ScanRunScores | js/analyzer.js:509-529 | the run loop yields the scan of the run scores |
| RunCriteria.CheckCriterion6 | js/analyzer.js:488-540 | `checkCriterion6RunScoreAverage` yields exactly criterion 6's result, failing without a model name or model folder |
| RunCriteria.Criterion7Counts | js/analyzer.js:545-598 | criterion 7 always passes, and counts no more result files than run folders and no more than 16 folders |
| RunCriteria.CountRunFolders | js/analyzer.js:565-592 | the two counting loops count exactly the run folders and the result files found |
| RunCriteria.CheckCriterion7 | js/analyzer.js:545-598 | `checkCriterion7RunFolderCount` yields exactly criterion 7's result |
| RunCriteria.Criterion8Missing | js/analyzer.js:621-636 | a run name is listed missing exactly when some run index found that folder and no result file in it |
| RunCriteria.MissingMember | js/analyzer.js:621-636 | the same for the scan of any number of runs |
| RunCriteria.Criterion7And8Agree | js/analyzer.js:565-636 | every run folder found has a result file or is listed missing, so criterion 8 passes exactly when criterion 7 counts as many result files as folders |
| RunCriteria.ScanMissingResults | js/analyzer.js:621-636 | the run loop of criterion 8 yields the scan of the missing names |
| RunCriteria.CheckCriterion8 | js/analyzer.js:602-644 | `checkCriterion8MissingResultFiles` yields exactly criterion 8's result |
| CountCriteria.CollectEmpty | js/analyzer.js:681-700 | a scan is empty exactly when every index contributes nothing |
| CountCriteria.RunScanEmpty | js/analyzer.js:708-728 | a run scan is empty exactly when every run contributes nothing |
| CountCriteria.CountMismatch | js/analyzer.js:664-669 | a folder records a mismatch exactly when its PNG and XML counts differ, and the mismatch holds both counts |
| CountCriteria.AnnotatorCountsEmpty | js/analyzer.js:681-700 | no annotator mismatch is recorded exactly when each annotator trajectory folder found is balanced |
| CountCriteria.RunCountsEmpty | js/analyzer.js:708-728 | no run mismatch is recorded exactly when each run trajectory folder found is balanced |
| CountCriteria.RunCountEmptyAt | js/analyzer.js:710-724 | one run records no mismatch exactly when its trajectory folder, if any, is balanced |
| CountCriteria.Criterion9Pass | js/analyzer.js:649-736 | criterion 9 passes exactly when it is disabled or SFT's, every annotator's and, when the task names an existing model folder, every run's trajectory folder has as many PNG as XML files |
| CountCriteria.CheckFolderCounts | js/analyzer.js:664-669 | the count check of one folder yields exactly its mismatch entry |
| CountCriteria.ScanAnnotatorCounts | js/analyzer.js:681-700 | the annotator loop of criterion 9 yields the scan of annotator mismatches |
| CountCriteria.CheckRunCounts | js/analyzer.js:710-724 | the body of criterion 9's run loop yields exactly that run's mismatch entry |
| CountCriteria.ScanRunCounts | js/analyzer.js:708-728 | the run loop of criterion 9 yields the scan of run mismatches |
| CountCriteria.CheckCriterion9 | js/analyzer.js:649-736 | `checkCriterion9PNGXMLMatch` yields exactly criterion 9's result |
| CountCriteria.StepCountMismatch | js/analyzer.js:759-769 | a folder records a mismatch exactly when it has a trajectory file and its PNG count is neither the step count nor one more |
| CountCriteria.Criterion10Pass | js/analyzer.js:740-817 | criterion 10 passes exactly when SFT's trajectory folder and every annotator trajectory folder found hold as many screenshots as steps, or one more |
| CountCriteria.AnnotatorStepsEmpty | js/analyzer.js:782-805 | no annotator mismatch is recorded exactly when each annotator's steps fit its screenshots |
| CountCriteria.CheckStepCount | js/analyzer.js:751-769 | the step check of one folder yields exactly its mismatch entry |
| CountCriteria.ScanAnnotatorSteps | js/analyzer.js:782-805 | the annotator loop of criterion 10 yields the scan of mismatches |
| CountCriteria.CheckCriterion10 | js/analyzer.js:740-817 | `checkCriterion10StepCountMatch` yields exactly criterion 10's result |
| UnrequiredFiles.MatchesAny | js/analyzer.js:853-860 | a name is a system file exactly when one of the patterns, tried in order, matches it |
| UnrequiredFiles.GlobStar | js/analyzer.js:846 | read as a glob, `*` alone matches every name |
| UnrequiredFiles.GlobPrefix | js/analyzer.js:846 | read as a glob, a literal followed by `*` matches exactly the names starting with the literal |
| UnrequiredFiles.SystemFileNames | js/analyzer.js:829-860 | with the patterns read as intended globs, a system file is `desktop.ini`, `Thumbs.db` or `.DS_Store`, or a name starting with `._`, `~$`, `.git`, `.vscode` or `.idea` |
| UnrequiredFiles.TildePatternAsWritten | js/analyzer.js:834-846 | compiled as written, `~$*` matches the single name `~`, because `$` ends the name before the wildcard |
| UnrequiredFiles.ResourceForkPattern | js/analyzer.js:833-846 | compiled as written, `._*` matches `a_b.txt`, because the dot matches any character |
| UnrequiredFiles.ResourceForkAsWritten | js/analyzer.js:833-860 | as written, `a_b.txt` is taken for a system file, which the intended reading does not do |
| UnrequiredFiles.LockFileAsWritten | js/analyzer.js:834-860 | as written, an office lock file `~$report.docx` is not a system file, which the intended reading flags |
| UnrequiredFiles.LastSegment | js/analyzer.js:864 | `split('/').pop()` holds no `/` |
| UnrequiredFiles.LastIndexOfConcat | js/analyzer.js:868 | the last occurrence in `a + b` of a character of `b` is found in `b` |
| UnrequiredFiles.VideoFileIn | js/analyzer.js:863-870 | a file placed in a folder is a video exactly when it is not `recording.mp4` and the text from its own last dot, lower-cased, is one of the eight video extensions |
| UnrequiredFiles.KelvinMkvIsVideo | js/analyzer.js:863-870 | a name ending in `.mkv` written with the Kelvin sign for `k` is a video, because `toLowerCase` maps that sign to `k` |
| UnrequiredFiles.LastSegmentIn | js/analyzer.js:864 | the last segment of `dir/name` is `name` |
| UnrequiredFiles.FromLastDotConcat | js/analyzer.js:868 | the extension of a path is that of its last part when that part holds a dot |
| UnrequiredFiles.ListedPathsHaveSegments | js/analyzer.js:874-875 | every listed path has a segment, so a file name is always found |
| UnrequiredFiles.FolderNamesDistinct | js/analyzer.js:884-922 | the folder names the rules compare against are distinct, and none is a `run_<digits>` name |
| UnrequiredFiles.ClaudeFolderHasU | js/analyzer.js:935-936 | a folder taken for a Claude folder holds a `u` in one case or the other |
| UnrequiredFiles.ClaudeFolderNotKnown | js/analyzer.js:884-936 | neither `SFT` nor any annotator root spelling is taken for a Claude folder |
| UnrequiredFiles.SftLocations | js/analyzer.js:884-897 | files in `SFT/Colab`, `SFT/Trajectory and Screenshot` and `SFT` fall under the SFT rules whatever the model name |
| UnrequiredFiles.AnnotatorLocations | js/analyzer.js:900-922 | an annotator's files fall under the annotator rules under every root spelling |
| UnrequiredFiles.ModelLocations | js/analyzer.js:925-953 | a model folder not named like an annotator root has its runs' files under the model rules |
| UnrequiredFiles.ClaudeLocations | js/analyzer.js:934-972 | with no model name, a folder whose lower-cased name contains `claude` falls under the Claude rules |
| UnrequiredFiles.TaskRootFiles | js/analyzer.js:879-881 | directly in the task folder exactly the `.json` files are expected |
| UnrequiredFiles.ColabFolders | js/analyzer.js:884-905 | each `Colab` folder, SFT's or an annotator's, expects exactly the `.ipynb` files |
| UnrequiredFiles.TrajectoryFilesExpected | js/analyzer.js:889-929 | the trajectory files, screenshots and recording are expected in SFT's, each annotator's and each run's trajectory folder; the score file only beside SFT's trajectory, and the run outputs only in a run's |
| UnrequiredFiles.RunFolderFiles | js/analyzer.js:948-953 | in a `run_<digits>` folder exactly the run outputs are expected |
| UnrequiredFiles.ClaudeFallback | js/analyzer.js:934-972 | with no model name, a Claude folder's trajectory files and run outputs are still expected |
| UnrequiredFiles.ScoreFilesExpected | js/analyzer.js:894-922 | `evaluation_score.txt` is the only file expected directly in `SFT` and in an annotator's folder |
| UnrequiredFiles.FirstRuleDecides | js/analyzer.js:895-945 | the first rule that applies decides even when it rejects: with a model folder named `SFT`, a `result.txt` beside it is not expected although the model-folder rule would accept it |
| UnrequiredFiles.ScanNext | js/analyzer.js:980-1014 | one more file of the loop appends its entries at the end |
| UnrequiredFiles.ScanMember | js/analyzer.js:980-1014 | an entry is in the list exactly when some file contributes it |
| UnrequiredFiles.ScanEmpty | js/analyzer.js:980-1016 | the list is empty exactly when no file contributes an entry |
| UnrequiredFiles.EntryReported | js/analyzer.js:984-1013 | a file contributes an entry exactly when it is not expected, with its path and the kind the first test that holds gives it: system, then video, then other |
| UnrequiredFiles.UnrequiredListed | js/analyzer.js:978-1014 | the list holds exactly the entries of the files not expected, each with its kind |
| UnrequiredFiles.Criterion11Pass | js/analyzer.js:978-1016 | criterion 11 passes exactly when every listed file is expected where it lies |
| UnrequiredFiles.PathsOf | js/analyzer.js:990-1012 | the paths of the entries, one per entry, in order |
| UnrequiredFiles.ScanSamePaths | js/analyzer.js:980-1014 | two classifications giving the same paths per file give the same paths overall |
| UnrequiredFiles.VerdictIndependentOfReading | js/analyzer.js:978-1016 | the verdict and the reported paths are the same whether the system patterns are read as written or as intended: only the reported kind differs |
| UnrequiredFiles.ClassifyFile | js/analyzer.js:984-1013 | one turn of the loop yields exactly the file's entry |
| UnrequiredFiles.CheckCriterion11 | js/analyzer.js:821-1040 | `checkCriterion11UnrequiredFiles` yields exactly criterion 11's result |
| Screenshots.ParseLeadingInt | js/analyzer.js:1317-1318 | `parseInt` gives a number exactly when the text starts with a digit, the digits' value for a digit string |
| Screenshots.FirstVariant | js/analyzer.js:1323-1329 | the first spelling whose folder passes the test, every earlier one failing; none when all fail |
| Screenshots.RemoveAnnotatorPrefix | js/analyzer.js:1299 | removing `annotator_` from an annotator's key leaves its number |
| Screenshots.ViewerVariantsOfKey | js/analyzer.js:1310-1320 | for `annotator_N` the viewer tries the same five spellings as the criteria |
| Screenshots.FirstVariantOfVariants | js/analyzer.js:1323-1329 | over those spellings the viewer's search is the criteria's |
| Screenshots.ViewerFolderAgreesWithCriteria | js/analyzer.js:1296-1334 | the viewer shows an annotator the trajectory folder of its first spelling that has a `Trajectory and Screenshot` folder, as the criteria testing for that folder do |
| Screenshots.ActionAt | js/analyzer.js:1344-1347 | a step has a parsed action exactly when the trajectory has that step |
| Screenshots.DragEndAt | js/analyzer.js:1350-1361 | a drag end is shown only for a mouseDown step followed by a moveTo step |
| Screenshots.DragFromMouseDownToMoveTo | js/analyzer.js:1344-1361 | a step `pyautogui.mouseDown(X0, Y0)` followed by `pyautogui.moveTo(X, Y)` is shown as a drag from (X0, Y0) to (X, Y) |
| Screenshots.NoDragWithoutMoveTo | js/analyzer.js:1350-1361 | a mouseDown followed by another mouseDown is no drag |
| Screenshots.StepNames | js/analyzer.js:1383-1390 | six file names are tried in the second stage |
| Screenshots.ShotPaths | js/analyzer.js:1392-1393 | six candidate paths, one per name |
| Screenshots.FirstFile | js/analyzer.js:1402-1413 | the first file in listing order passing the test, every earlier one failing; none when all fail |
| Screenshots.FirstFileIs | js/analyzer.js:1402-1413 | a passing file with none before it passing is the first one |
| Screenshots.ScreenshotOf | js/analyzer.js:1364-1413 | there is no screenshot exactly when the observation names no file, none of the six names is a file, and no PNG names the step |
| Screenshots.GetScreenshot | js/analyzer.js:1286-1334 | an entity without a trajectory folder gets the empty result |
| Screenshots.FindFirstVariant | js/analyzer.js:1323-1329 | the variant loop finds exactly the first passing spelling |
| Screenshots.FindTrajectoryDir | js/analyzer.js:1295-1334 | the folder half of `getScreenshotPath` yields the entity's trajectory folder |
| Screenshots.FindPatternShot | js/analyzer.js:1392-1398 | the second-stage loop yields the first candidate path that names a file |
| Screenshots.FindStepPng | js/analyzer.js:1401-1413 | the third-stage loop yields the first PNG naming the step, plain or padded to four digits |
| Screenshots.GetScreenshotPath | js/analyzer.js:1286-1420 | `getScreenshotPath` yields exactly the screenshot, action and drag end the folder defines for the step |
| Analysis.Outcomes | js/analyzer.js:1242-1266 | the eleven results are numbered 1 to 11 in criterion order |
| Analysis.DistinctKeysLookup | js/analyzer.js:1268-1278 | with distinct keys, each entry reads back under its own key |
| Analysis.CriterionKeysDistinct | js/analyzer.js:1268-1278 | the eleven criterion keys are distinct |
| Analysis.RecordLookup | js/analyzer.js:1268-1278 | the results are stored under the fixed keys in order, and each reads back under its key |
| Analysis.NumberedNumbers | js/analyzer.js:1242-1266 | the k-th result is criterion k + 1's |
| Analysis.RecordNumbered | js/analyzer.js:1268-1278 | the key at position k reads back criterion k + 1's result |
| Analysis.CriteriaInOrder | js/analyzer.js:1223-1281 | the criteria are stored under the eleven fixed keys in criterion order, and each key reads back its own criterion's outcome |
| Analysis.TaskIdentity | js/analyzer.js:1225-1232 | without a task JSON there is neither task id nor model name; with one, the model name is read from its file |
| Analysis.AnalyzeTaskFolder | js/analyzer.js:1223-1281 | `analyzeTaskFolder` yields exactly the analysis of the folder |
| ComparisonView.QualityMatchesCriterion4 | js/main.js:607-616 | a cell is labelled bad exactly when criterion 4 counts it underwritten, generic when it mentions "executing step" with at least 20 words, good when it does not mention the phrase |
| ComparisonView.PassingNotebooksHaveNoBadCell | js/main.js:607-616 | when criterion 4 passes, no cell of the notebooks it read is labelled bad |
| ComparisonView.MatrixKey | js/main.js:654-664 | a matrix cell reads no key exactly on the diagonal |
| ComparisonView.MatrixKeySymmetric | js/main.js:659-664 | both cells of a pair read the same key |
| ComparisonView.MatrixShowsSimilarity | js/main.js:650-671 | each off-diagonal cell shows the similarity recorded for its two trajectories when both were found, and `N/A` otherwise |
| ComparisonView.LaterFirstKeyNeverWritten | js/main.js:659-665 | the key naming the later entity first is never written, so the matrix must use the earlier-first key |
| ComparisonView.Columns | js/main.js:683 | four columns, one per entity |
| ComparisonView.IdenticalIff | js/main.js:714-721 | a step is marked identical exactly when every column has it, non-empty, and all are equal |
| ComparisonView.IdenticalAcrossColumns | js/main.js:714-721 | a step identical in one column is identical in every column |
| ComparisonView.UnmarkedIffEmpty | js/main.js:719-724 | a shown step is left unmarked exactly when its action is empty |
| ComparisonView.DifferentHasWitness | js/main.js:714-724 | a step marked different has a column that lacks it or holds another action |
| ComparisonView.EveryStepSame | js/main.js:715 | the `every` test finds exactly whether all columns agree on a non-empty action |
| ComparisonView.MarkStep | js/main.js:717-726 | one step's loop sets that step's mark in each column that has it and leaves the other marks |
| ComparisonView.Longest | js/main.js:711 | `Math.max` of the column lengths is one of them and no smaller than any |
| ComparisonView.MarkTrajectorySimilarities | js/main.js:709-728 | every shown step of every column gets its mark |
| ScreenshotView.Flip | js/main.js:1174-1186 | the toggle always changes the mode |
| ScreenshotView.StepMapping | js/main.js:914-920 | step 0 shows the first screen and no action; a later step shows the action of the previous step, between the `before` screen (the previous step's) and the `after` screen |
| ScreenshotView.ButtonsMatchNavigation | js/main.js:910-911 | up to the last step, the previous button is disabled exactly when `navigateScreenshot(-1)` would do nothing, and the next button exactly when `navigateScreenshot(1)` would |
| ScreenshotView.PrevEnabledPastTheEnd | js/main.js:910-911 | opened past the last step, the previous button is enabled and yet does nothing |
| ScreenshotView.MovesStayInRange | js/main.js:1026-1038 | from a step inside the range every move that happens lands inside it |
| ScreenshotView.DisplayFacts | js/main.js:867-1014 | at step 0 no action is drawn and the toggle is hidden; at a later step the `before` screen is the previous step's `after` screen; when the step's screenshot exists the action drawn is the previous step's, with its drag end, and without a screenshot no action and no drag end are drawn; the toggle is shown exactly when an action is drawn |
| ScreenshotView.AnalyzerDisplay | js/main.js:867-1014 | over a loaded folder a step draws the screenshot of its mapped step; with that screenshot and a step above 0 it draws the parsed action of the previous step, and otherwise no action |
| ScreenshotView.FetchDisplay | js/main.js:910-1014 | the two `getScreenshotPath` calls of `loadScreenshot`, and the choice between drawing the action and "Screenshot not found", yield exactly the step's display |
| ScreenshotView.ScreenshotViewer.constructor | js/main.js:842-847 | the viewer starts with nothing open, in `after` mode |
| ScreenshotView.ScreenshotViewer.Load | js/main.js:867-931 | `loadScreenshot` shows the step's display, sets the step and the buttons, and keeps the entity, step count and mode |
| ScreenshotView.ScreenshotViewer.Show | js/main.js:849-865 | `showScreenshot` opens the entity with one more step than its trajectory has actions and loads the step |
| ScreenshotView.ScreenshotViewer.Navigate | js/main.js:1026-1038 | with an entity open and the new step inside the range, the new step is loaded; otherwise nothing changes |
| ScreenshotView.ScreenshotViewer.Toggle | js/main.js:1174-1186 | at step 0 nothing changes; otherwise the mode flips and the open step is reloaded |

## Left out

- File input: `FileReader`, `File` objects and Promises. The text of a file is a parameter (`Inputs.Env.text`), and the reader's result is an argument of the `FileManager` read methods.
- Data URLs: `readFileAsDataURL` is modelled as a cached read, and the data URL the reader delivers is a parameter. The base64 encoding is not modelled.
- The DOM and rendering: modals, canvas drawing, images, the fullscreen mode, the overlay animations (`js/animations.js`) and the text of messages. `js/animations.js` is not part of this model.
- Floating point: a number is `Inputs.Num`, either NaN or an exact real. `parseFloat` is an abstract function, and `toFixed` is not modelled. The 0.01 and 0.95 tolerances are compared on exact reals. `Inputs.Num` has no infinities. A `result.txt` holding `Infinity`, `-Infinity` or an overflowing literal such as `1e999` parses to an infinity in JavaScript. Criterion 6 then passes on a `-Infinity` average, because `-Infinity < 1` (`js/analyzer.js:530-532`), and fails on `Infinity`. The model's `parseFloat` yields NaN or a real, so these cases are not modelled.
- Message strings: every `message` field and the category labels of the comparison view are left out. Only the verdicts and the data behind them are modelled.
- `getNotebookAssistantCellsForComparison` (`js/analyzer.js:1045`) is not part of this model. The comparison view's cell labels are modelled over `Trajectories` assistant cells.
- Concurrency: `Promise.all` in `analyzeTaskFolder` is modelled as the criteria run one after another. In the model the criteria read each file's own text and only read the folder, so the order does not change the result. In the code every read goes through the shared text cache. Under the cache collision described under "## Findings" (`js/fileManager.js:147`), the order in which `Promise.all` runs the criteria decides which file's text the cache holds.
- JavaScript objects used as maps: integer-like keys, which JavaScript lists first, and properties inherited from the prototype are not modelled. Keys keep insertion order.
- `parseInt` is modelled for text that starts with a decimal digit. Leading whitespace, a sign and hexadecimal prefixes are not modelled; no folder name of the system starts with them. JavaScript's `parseInt` returns a double. It is exact only up to 2^53 = 9007199254740992 and rounds above it, so `9007199254740993` reads as 9007199254740992. From about 309 digits on it gives `Infinity`. The model reads the exact integer value of every digit string. No screen coordinate, scroll amount, step number or annotator number of the system comes near 2^53. The lemmas below state exact values and are weaker than exact only in this sense:
- NumeralValueOf (`ActionFacts.NumeralValueOf`): the modelled `parseInt` (js/utils.js:29-30) gives the value of the decimal text of every natural number. The 2^53 bound is not modelled.
- ClickRoundTrip (`ActionFacts.ClickRoundTrip`): the round trip gives back the coordinates of `click(X, Y)` exactly (js/utils.js:29-30). In the code it does so only for coordinates up to 2^53. The 2^53 bound is not modelled.
- ParsedClick (`ActionFacts.ParsedClick`): the parsed coordinates are the digits' exact values (js/utils.js:29-30). In the code they are exact only up to 2^53. The 2^53 bound is not modelled.
- MouseDownRoundTrip (`ActionFacts.MouseDownRoundTrip`): the round trip gives back the coordinates exactly (js/utils.js:48-49). In the code it does so only up to 2^53. The 2^53 bound is not modelled.
- MoveToRoundTrip (`ActionFacts.MoveToRoundTrip`): the round trip gives back the coordinates exactly (js/utils.js:57-58). In the code it does so only up to 2^53. The 2^53 bound is not modelled.
- ScrollKeepsSign (`ActionFacts.ScrollKeepsSign`): the scroll amount is the digits' exact value with its sign (js/utils.js:103-108). In the code it is exact only up to 2^53 in absolute value. The 2^53 bound is not modelled.
- ButtonClickRoundTrip (`ActionFacts.ButtonClickRoundTrip`): the round trip gives back the coordinates exactly (js/utils.js:29-30). In the code it does so only up to 2^53. The 2^53 bound is not modelled.
- RightButtonClick (`ActionFacts.RightButtonClick`): the coordinates of a right click are the digits' exact values (js/utils.js:29-30). In the code they are exact only up to 2^53. The 2^53 bound is not modelled.
- ParseLeadingInt (`Screenshots.ParseLeadingInt`): the annotator number is the exact value of the leading digits (js/analyzer.js:1317-1319). In the code it is exact only up to 2^53, and `Infinity` for 309 digits or more. The 2^53 bound is not modelled.
- DragFromMouseDownToMoveTo (`Screenshots.DragFromMouseDownToMoveTo`): the drag's end points are the exact coordinates of `mouseDown` and `moveTo` (js/utils.js:48-49, 57-58). In the code they are exact only up to 2^53. The 2^53 bound is not modelled.
- `try`/`catch`: a file that cannot be read or parsed is modelled by the abstract parser returning none. Exceptions thrown by the browser are left out, and so are two raised by the code itself. A JSONL line holding `null` is kept by `readFileAsJSONL` (`js/fileManager.js:198`), and reading `step.action` from it then throws in `hashTrajectoryActions` (`js/analyzer.js:11`). A `null` notebook cell makes `extractNotebookAssistantCells` return the cells collected so far, through its `catch`. The abstract step parser yields a step or none, so it cannot express a throw.
- `Screenshots.GetScreenshot`: the step index is a `nat`. The viewer never passes a negative step, because `navigateScreenshot` stops at 0.
- ScreenshotView.DisplayOf: a screenshot that exists is taken to load. The `img.onerror` branch, which shows "Failed to load screenshot" (`js/main.js:1004-1008`), is not modelled.
- ScreenshotView: the text of the toggle button and the step caption ("Initial State", "DONE") are not modelled.
- `ScreenshotView.Fetch`: the viewer's calls to `analyzer.getScreenshotPath` are a function parameter. `ScreenshotView.AnalyzerDisplay` ties it to `Screenshots.GetScreenshot` over a loaded folder.
- SHA-256 is an abstract digest (`Inputs.Env.digest`). Only its determinism is used: equal action lists give equal fingerprints.
- `JSON.parse` is an abstract parser, one per use (trajectory step, notebook, task JSON). What a parse yields is an argument of the model.
- ParsePyautoguiAction: round trips are proved for the click family with or without a `button` argument (`ActionFacts.ClickRoundTrip`, `ActionFacts.ButtonClickRoundTrip`, `ActionFacts.RightButtonClick`), `mouseDown` and `moveTo`. For `press`, `hotkey`, `write`, `typewrite` and `scroll`, only properties of the individual pattern match are proved: `ActionFacts.HotkeyKeysInOrder`, `ActionFacts.WriteCloseStops` and `ActionFacts.ScrollKeepsSign`. The whole-string round trip for those is not proved.
- Text.Lower: lower-casing maps one character at a time, so the model keeps the length. JavaScript's `toLowerCase` applies the full Unicode mapping, and a few characters change length under it, such as U+0130 (capital I with a dot), which becomes two characters. The model maps `A`–`Z` and the Kelvin sign U+212A, the one non-ASCII character whose lower case is an ASCII letter (`UnrequiredFiles.KelvinMkvIsVideo`). Every other character is left as it is. The model is therefore exact for every comparison with the lower-case ASCII literals the core uses.
- File texts in the criteria: `ScoreCriteria.CheckCriterion1`, `ScoreCriteria.CheckCriterion2`, `ScoreCriteria.CheckCriterion3`, `ContentCriteria.CheckCriterion4`, `ContentCriteria.CheckCriterion5`, `RunCriteria.CheckCriterion6`, `CountCriteria.CheckCriterion10`, `Comparison.GetTrajectoryComparisonData` and `Analysis.AnalyzeTaskFolder` read each file's own text (`Inputs.Env.text`). They do not go through the `name:size:lastModified` cache of `js/fileManager.js:147`. The cache is modelled as written in `FileManager`, and its collision is under "## Findings".
- FileTree.MatchesPattern: for a pattern that holds `*` but does not start with `*.`, the code builds a regular expression (js/fileManager.js:132-135). The model keeps the regular-expression meaning of `.`, `$` and `*` only, and reads every other character literally. So `matchesPattern("aa", "a+*")` is true in the code and false in the model. A pattern that is not a valid regular expression, such as `(*`, makes the code throw, and the model gives false. Every caller in the core passes `*.ext` or a literal name: js/analyzer.js:333, 364, 1063, 1099 and 1401, and js/utils.js:132, 173, 179 and 208. None of them reaches this branch.
- FileTree.UnescapedGlob: models the regular expression only for patterns made of literal characters, `.`, `$` and `*`, as above.
- System file patterns: `UnrequiredFiles.Criterion11`, `UnrequiredFiles.ClassifyFile`, `UnrequiredFiles.CheckCriterion11` and `Analysis.AnalyzeTaskFolder` read the system patterns as globs, not as the regular expressions the code builds (`js/analyzer.js:846`). `UnrequiredFiles.VerdictIndependentOfReading` proves that the verdict and the reported paths are the same under both readings. `UnrequiredFiles.ResourceForkAsWritten` and `UnrequiredFiles.LockFileAsWritten` show the reading as written.
- AssistantCell.charCount: the count is the number of Unicode scalar values in the cell's text. JavaScript's `length` counts UTF-16 code units, so the two differ for characters outside the Basic Multilingual Plane. No criterion reads this field.
- Behaviours of the code worth noting; the model follows the code:
  - `time.sleep(.)` matches the pattern `[\d.]+`, and `parseFloat` yields NaN for it. The `catch` that would set 0.0 (js/utils.js:114-118) is never reached, because `parseFloat` does not throw.
  - The comparison view records similarities only for pairs of trajectories that were found. A missing entity gives no trajectory and no similarity.
  - The comparison view takes an annotator's trajectory from the first annotator folder that exists. The screenshot viewer takes the first folder that holds a `Trajectory and Screenshot` folder.
  - Opened past the last step, the viewer's previous button is enabled but does nothing (`ScreenshotView.PrevEnabledPastTheEnd`).

## Findings

| source | as written | input that shows it | evidently intended | confidence | as-written member | corrected member |
|---|---|---|---|---|---|---|
| js/fileManager.js:147 | the text cache is keyed by `name:size:lastModified` | two files named `evaluation_score.txt` with the same size and time stamp, in `SFT` and in `annotator1`, holding "1" and "0": the second read returns "1" | each file's read returns that file's own text | not executed | FileManager.CollidingReadsAsWritten | FileManager.IdentityReadsFaithful |
| js/analyzer.js:846 | the system patterns become regular expressions with only `*` rewritten, so `.` and `$` keep their regex meaning | `a_b.txt` is reported as a system file (`._*`), and `~$report.docx` is not (`~$*` matches only `~`) | the patterns read as globs: a name starting with `._` or `~$` | not executed | UnrequiredFiles.ResourceForkAsWritten | UnrequiredFiles.SystemFileNames |

The criteria read each file's text directly (`Inputs.Env.text`), as the corrected cache does. The `FileManager` class keeps the cache as written. `UnrequiredFiles.Criterion11` reads the patterns as globs. `UnrequiredFiles.LockFileAsWritten` shows the second half of the pattern finding. `UnrequiredFiles.VerdictIndependentOfReading` proves that only the reported kind of a file changes: the verdict and the reported paths are the same under both readings.
