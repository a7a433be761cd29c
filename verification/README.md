# PlatformFolders, Unix branch, in Dafny

This project models the Unix (XDG) half of `sago/platform_folders.cpp`, the part of the
PlatformFolders library that finds a user's standard directories on Linux and other
Unix-like systems. It implements the XDG Base Directory Specification and reads the
`user-dirs.dirs` file that xdg-user-dirs writes.

The model has four parts:

- **Home-variant resolvers** (`base_dirs.dfy`, module `BaseDirs`). These are `getDataHome`,
  `getConfigHome` and `getCacheDir`. Each reads one override variable. A set override must
  be absolute, meaning it starts with `/`. An unset override falls back to
  `$HOME/<default>`. Failures are `Err` results that name the variable and its value, or
  report that HOME is missing.
- **Search paths** (`search_path.dfy`, module `SearchPath`). These are
  `appendAdditionalDataDirectories` and `appendAdditionalConfigDirectories`. A value is split
  at `:` the way `strtok_r` splits it. Tokens that start with `/` are appended to the
  caller's list in order, and all others are skipped. `Fields`/`Join` form a reference
  definition of the split, proved to be a bijection.
- **`user-dirs.dirs` reader** (`user_dirs_file.dfy`, module `UserDirsFile`, using
  `cxx_string.dfy` for `std::string::find`/`substr` and size_t arithmetic). Blank lines and
  `#` lines are skipped. Every other line is cut at its first `=`. The model keeps the
  unsigned wrap-around of the C++ code, so malformed lines do what they do there. A line
  with no `=` keeps the whole line as key and trims one character from each end for the
  value. A line whose first `=` is its last character throws `std::out_of_range`.
- **Folder table** (`folder_table.dfy`, module `FolderTable`). `PlatformFoldersFillData`
  does three things in order:
  1. It seeds the eight `XDG_*_DIR` defaults.
  2. It reads `<config home>/user-dirs.dirs` over them.
  3. It rewrites a leading `$HOME` in every value.

  The `PlatformFolders` class holds the table that was built, and its accessors are
  lookups into it.

`environ.dfy` (module `Environ`) holds the environment, `getenv` and the error results.
`seq_facts.dfy` (module `SeqFacts`) holds generic sequence lemmas that the proofs use.

The environment is a parameter (`map<string, string>`, set exactly when the name is a key).
The files are a parameter too: a map from path to the lines `std::getline` yields. A path
that is absent cannot be opened and yields no lines. The C++ code updates a
`std::vector<std::string>&` or `std::map&` in place. Here each such function is a method
that takes the container and returns its new value. The callers own these containers
exclusively, so nothing observes them mid-update.

Three facts about the code shape the model:

- The home directory comes only from HOME; there is no passwd lookup
  (sago/platform_folders.cpp:74-82).
- The six table accessors cannot fail after construction; `getSaveGamesFolder1` resolves
  the data home at call time and can fail like `getDataHome`.
- There are seven accessors; XDG_PUBLICSHARE_DIR and XDG_TEMPLATES_DIR are in the table
  but have none.

## Model

| member | source | states |
|---|---|---|
| `Environ.Getenv` | sago/platform_folders.cpp:76 | `getenv`: a value exactly when the variable is set, and then the environment's value; the null pointer otherwise |
| `BaseDirs.ThrowOnRelative` | sago/platform_folders.cpp:66-72 | a value is rejected exactly when it is empty or its first character is not `/`, with an error naming the variable and the value |
| `BaseDirs.GetHome` | sago/platform_folders.cpp:74-82 | succeeds exactly when HOME is set, with HOME's value unchecked; otherwise the "HOME is not defined" error |
| `BaseDirs.GetLinuxFolderDefault` | sago/platform_folders.cpp:84-94 | a set absolute override is returned unchanged even without HOME; a set relative override is an error naming it; an unset override gives HOME + "/" + default; unset override and unset HOME is an error |
| `BaseDirs.ResolvedFolderIsAbsolute` | sago/platform_folders.cpp:84-94 | every successful result is absolute when HOME is absolute |
| `BaseDirs.GetDataHome` | sago/platform_folders.cpp:127-133 | XDG_DATA_HOME when set (success iff absolute, else an error naming it and its value), else HOME + "/.local/share", failing with the HOME error iff HOME is unset |
| `BaseDirs.GetConfigHome` | sago/platform_folders.cpp:135-141 | XDG_CONFIG_HOME when set (success iff absolute, else an error naming it and its value), else HOME + "/.config", failing with the HOME error iff HOME is unset |
| `BaseDirs.GetCacheDir` | sago/platform_folders.cpp:143-149 | as written: XDG_CONFIG_HOME when set (success iff absolute, else an error naming XDG_CONFIG_HOME), else HOME + "/.cache", failing with the HOME error iff HOME is unset |
| `BaseDirs.CacheDirFollowsConfigOverride` | sago/platform_folders.cpp:135-149 | whenever XDG_CONFIG_HOME is set, the cache result equals the config result, success or error |
| `BaseDirs.CacheDirDefaultDiffersFromConfig` | sago/platform_folders.cpp:135-149 | with XDG_CONFIG_HOME unset and HOME set, the two are HOME + "/.cache" and HOME + "/.config" |
| `BaseDirs.CacheDirIgnoresCacheHome` | sago/platform_folders.cpp:143-149 | setting XDG_CACHE_HOME to anything never changes the cache result |
| `BaseDirs.CacheDirCounterexample` | sago/platform_folders.cpp:147 | with HOME=/home/u and XDG_CACHE_HOME=/var/cache/u the result is /home/u/.cache, not the configured directory |
| `BaseDirs.GetCacheDirXdg` | sago/platform_folders.cpp:143-149 | corrected resolver: XDG_CACHE_HOME when set (success iff absolute, else an error naming it), else HOME + "/.cache", failing with the HOME error iff HOME is unset |
| `BaseDirs.CacheDirXdgHonoursCacheHome` | sago/platform_folders.cpp:143-149 | the corrected resolver returns any absolute XDG_CACHE_HOME and ignores XDG_CONFIG_HOME |
| `SearchPath.Fields` | sago/platform_folders.cpp:100-110 | reference split of a search path at every `:`, empty fields included, so there is always at least one field; described by `FieldsJoin`, `JoinFields`, `FieldsHaveNoSeparator` and `FieldsSplitAtColon` |
| `SearchPath.SearchEntries` | sago/platform_folders.cpp:96-112 | what the tokenizer appends: the fields that start with `/`, in order; described by `SearchEntriesAreAbsoluteTokens`, `SearchEntriesSplitAtColon` and `TokenStepAt` |
| `SearchPath.FieldsOfColon` | sago/platform_folders.cpp:100-110 | a leading `:` contributes one empty field in front of the fields of the rest |
| `SearchPath.FieldsOfChar` | sago/platform_folders.cpp:100-110 | a leading ordinary character joins the first field of the rest |
| `SearchPath.FieldsHaveNoSeparator` | sago/platform_folders.cpp:100-110 | no field of the split holds `:` |
| `SearchPath.FieldsJoin` | sago/platform_folders.cpp:100-110 | joining the fields with `:` restores the string |
| `SearchPath.JoinFields` | sago/platform_folders.cpp:100-110 | splitting a join of `:`-free fields gives the fields back, so the split is a bijection |
| `SearchPath.FieldsOfToken` | sago/platform_folders.cpp:100-110 | a string without `:` is one field |
| `SearchPath.FieldsSplitAtColon` | sago/platform_folders.cpp:100-110 | the fields of `a:b` are the fields of `a` followed by those of `b` |
| `SearchPath.SplitAfterColon` | sago/platform_folders.cpp:100-110 | the split-at-colon property survives putting a `:` in front of `a` |
| `SearchPath.SplitAfterChar` | sago/platform_folders.cpp:100-110 | the split-at-colon property survives putting an ordinary character in front of `a` |
| `SearchPath.AbsoluteEntriesAppend` | sago/platform_folders.cpp:102-109 | keeping the absolute fields distributes over concatenation, preserving order |
| `SearchPath.AbsoluteEntriesMembers` | sago/platform_folders.cpp:102-109 | a string is kept exactly when it is one of the fields and starts with `/` |
| `SearchPath.EmptyEntries` | sago/platform_folders.cpp:100-101 | an empty search path appends nothing |
| `SearchPath.SearchEntriesSplitAtColon` | sago/platform_folders.cpp:100-111 | order: the entries appended for `a:b` are those for `a`, then those for `b` |
| `SearchPath.SearchEntriesOfToken` | sago/platform_folders.cpp:102-109 | a single token is appended exactly when it starts with `/`, and skipped otherwise |
| `SearchPath.LeadingColonAddsNothing` | sago/platform_folders.cpp:100-110 | a leading `:` adds no entry |
| `SearchPath.TrailingColonAddsNothing` | sago/platform_folders.cpp:100-110 | a trailing `:` adds no entry |
| `SearchPath.DoubledColonAddsNothing` | sago/platform_folders.cpp:100-110 | `::` appends the same as `:` |
| `SearchPath.SearchEntriesAreAbsoluteTokens` | sago/platform_folders.cpp:100-110 | every appended entry is non-empty, starts with `/` and holds no `:`; a string is appended iff it is a field that starts with `/` |
| `SearchPath.SeparatorStepAt` | sago/platform_folders.cpp:100-110 | a `:` at the scan position contributes nothing: `strtok_r` skips it |
| `SearchPath.TokenStepAt` | sago/platform_folders.cpp:100-110 | one `strtok_r` token, ended by a `:` or the end of the string, contributes itself if it starts with `/`, then the rest |
| `SearchPath.AppendExtraFoldersTokenizer` | sago/platform_folders.cpp:96-112 | the result is the caller's list, unchanged, followed by exactly the absolute `:`-separated tokens in input order |
| `SearchPath.AppendExtraFolders` | sago/platform_folders.cpp:114-120 | tokenizes the variable when it is set (even empty), else the default |
| `SearchPath.DefaultDataDirsEntries` | sago/platform_folders.cpp:155 | the default data search path yields ["/usr/local/share/", "/usr/share/"] |
| `SearchPath.DefaultConfigDirsEntries` | sago/platform_folders.cpp:163 | the default config search path yields ["/etc/xdg"] |
| `SearchPath.TwoAbsoluteTokens` | sago/platform_folders.cpp:100-110 | two absolute tokens separated by one `:` are both appended, in order |
| `SearchPath.RelativeTokenSkipped` | sago/platform_folders.cpp:102-109 | `a:rel:b` with `a`, `b` absolute and `rel` relative appends exactly [a, b] |
| `SearchPath.RelativeEntrySkipped` | sago/platform_folders.cpp:102-109 | "/a:rel:/b" appends exactly ["/a", "/b"] |
| `SearchPath.AppendAdditionalDataDirectories` | sago/platform_folders.cpp:151-157 | appends the absolute tokens of XDG_DATA_DIRS, or exactly ["/usr/local/share/", "/usr/share/"] when it is unset |
| `SearchPath.AppendAdditionalConfigDirectories` | sago/platform_folders.cpp:159-165 | appends the absolute tokens of XDG_CONFIG_DIRS, or exactly ["/etc/xdg"] when it is unset |
| `CxxString.SizeT` | sago/platform_folders.cpp:182 | arithmetic on `size_t` stays within 0..npos, agrees with the mathematical value modulo 2^64, and is exact on values already in range |
| `CxxString.SizeTWrapsNegative` | sago/platform_folders.cpp:182 | a size_t difference below zero wraps to that value plus 2^64 |
| `CxxString.IndexOf` | sago/platform_folders.cpp:180 | the position of the first occurrence of a character the string contains |
| `CxxString.Find` | sago/platform_folders.cpp:180 | `line.find("=")` is the first `=` position, or npos when there is none |
| `CxxString.Substr` | sago/platform_folders.cpp:181-182 | `substr` throws out_of_range exactly when the start is past the end; otherwise the clamped slice |
| `UserDirsFile.ParseLine` | sago/platform_folders.cpp:177-182 | one line of the file: skipped exactly when blank or starting with `#`, and a throw is always `std::out_of_range`; described by `ParseLineShape`, `AssignmentLine`, `LineWithoutEquals` and `LineEndingInEquals` |
| `UserDirsFile.ParseLineShape` | sago/platform_folders.cpp:177-182 | a line that is not skipped throws exactly when its first `=` is its last character; otherwise it assigns, with the key being the text before the first `=` (the whole line when there is none) |
| `UserDirsFile.ApplyLine` | sago/platform_folders.cpp:177-183 | the table after one line: fails exactly when the line throws, and never loses a key; described by `SkippedLine` and `AssignmentLine` |
| `UserDirsFile.ApplyLines` | sago/platform_folders.cpp:176-185 | the table after the lines in order; a failure is always `std::out_of_range`; described by `ApplyLinesAppend`, `ApplyLinesUntouched` and `LastAssignmentWins` |
| `UserDirsFile.ApplyLinesSucceeds` | sago/platform_folders.cpp:176-185 | when no line throws, reading the file succeeds |
| `UserDirsFile.SkippedLine` | sago/platform_folders.cpp:177-179 | empty lines and lines starting with `#` leave the table unchanged |
| `UserDirsFile.ParseLineValue` | sago/platform_folders.cpp:180-182 | a line whose first `=` is not its last character assigns the text before that `=` to the text from two past it up to, not including, the last character (empty when the `=` is second to last); `LineWithoutEquals` gives the case with no `=` |
| `UserDirsFile.ValueAfterEquals` | sago/platform_folders.cpp:182 | `substr(k+2, length()-k-3)` is the text up to the last character, or empty when the count wraps to npos |
| `UserDirsFile.AssignmentLine` | sago/platform_folders.cpp:180-183 | a line `K="V"` (K free of `=` and not starting with `#`) sets the table at K to V and leaves every other key untouched |
| `UserDirsFile.LineWithoutEquals` | sago/platform_folders.cpp:180-183 | a line with no `=` (npos + 2 wraps to 1) sets the whole line as key to the line minus its first and last characters |
| `UserDirsFile.LineEndingInEquals` | sago/platform_folders.cpp:180-182 | a line whose only `=` is its last character throws out_of_range |
| `UserDirsFile.ApplyLinesAppend` | sago/platform_folders.cpp:176-185 | reading lines `a` then `b` is reading `a + b`, and a throw in `a` ends it |
| `UserDirsFile.ApplyLinesKeepsKeys` | sago/platform_folders.cpp:176-185 | reading the file never removes a key |
| `UserDirsFile.ApplyLinesUntouched` | sago/platform_folders.cpp:176-185 | a key no line assigns keeps its presence and value |
| `UserDirsFile.LastAssignmentWins` | sago/platform_folders.cpp:176-185 | a later line with the same key overwrites earlier ones: the last assignment's value is the result |
| `UserDirsFile.ApplyLinesAt` | sago/platform_folders.cpp:176-185 | reading from line i applies line i, then reads on from line i + 1, unless line i throws |
| `UserDirsFile.AddLine` | sago/platform_folders.cpp:177-183 | the body of the `getline` loop computes exactly the effect of one line, or its throw |
| `UserDirsFile.PlatformFoldersAddFromFile` | sago/platform_folders.cpp:173-186 | the loop's result is the line-by-line fold of the file over the table, or the first throw |
| `FolderTable.SeedDefaults` | sago/platform_folders.cpp:189-196 | the eight keys get their `$HOME/...` defaults, and other keys keep their values |
| `FolderTable.HasHomePrefix` | sago/platform_folders.cpp:200 | `value.compare(0, 5, "$HOME") == 0`, written with `substr`; described by `HomePrefixMeansFirstFive` |
| `FolderTable.HomePrefixMeansFirstFive` | sago/platform_folders.cpp:200 | `compare(0, 5, "$HOME") == 0` holds exactly when the first five characters are `$HOME`, whatever follows |
| `FolderTable.ExpandValue` | sago/platform_folders.cpp:200-201 | a value without the `$HOME` prefix is unchanged; one with it becomes HOME followed by the rest; with HOME absolute, the result is absolute exactly when the value was absolute or had the prefix |
| `FolderTable.ExpandHome` | sago/platform_folders.cpp:198-203 | keys unchanged; a value starting with `$HOME` gets HOME in place of that prefix, and other values are unchanged; fails iff HOME is unset and some value needs it |
| `FolderTable.ExpandHomeEntries` | sago/platform_folders.cpp:198-203 | the in-place rewrite loop computes exactly the expansion, or the HOME error |
| `FolderTable.FillData` | sago/platform_folders.cpp:188-204 | the fill as a function: seed, read the file under the config home, expand; it can fail only with the HOME error, `std::out_of_range`, or the error naming a relative XDG_CONFIG_HOME; described by the `FillData...` lemmas |
| `FolderTable.FillDataHasAllKeys` | sago/platform_folders.cpp:188-204 | after a successful fill all eight XDG_*_DIR keys are present |
| `FolderTable.SeededFoldersUsable` | sago/platform_folders.cpp:189-196 | every seeded default starts with `$HOME` |
| `FolderTable.ApplyLinesKeepsUsable` | sago/platform_folders.cpp:176-185 | lines that give each of the eight keys an absolute or `$HOME` value keep every such entry absolute or `$HOME`-prefixed |
| `FolderTable.UsableFoldersExpand` | sago/platform_folders.cpp:198-203 | with HOME absolute, the expansion makes every such entry absolute |
| `FolderTable.FillDataFoldersAbsolute` | sago/platform_folders.h:118-147 | the accessors' "absolute path" promise holds when HOME is absolute and every file line for the eight keys gives an absolute or `$HOME` value: each of the eight entries is present and absolute |
| `FolderTable.FillDataNeedsConfigHome` | sago/platform_folders.cpp:197 | an unresolvable config home fails the fill with that error |
| `FolderTable.FillDataDefaults` | sago/platform_folders.cpp:188-204 | with no `user-dirs.dirs` lines the table holds exactly the eight keys, each HOME + "/Documents", "/Desktop", ..., e.g. music is HOME + "/Music" |
| `FolderTable.DefaultExpands` | sago/platform_folders.cpp:198-203 | with HOME set, an entry `$HOME` + suffix expands to HOME + suffix |
| `FolderTable.FillDataWithoutHome` | sago/platform_folders.cpp:197-203 | without HOME and with no file lines, the fill fails with the HOME error |
| `FolderTable.FillDataMusicFromFile` | sago/platform_folders.cpp:188-204 | the file line `XDG_MUSIC_DIR="$HOME/Tunes"` makes the music entry HOME + "/Tunes" |
| `FolderTable.PlatformFoldersFillData` | sago/platform_folders.cpp:188-204 | seeding, reading the file and expanding compute exactly the specified fill, including every error |
| `FolderTable.NewPlatformFolders` | sago/platform_folders.cpp:207-218 | construction fails exactly when the fill fails, with its error; otherwise a fresh object holds the filled table |
| `FolderTable.PlatformFolders.constructor` | sago/platform_folders.cpp:207-218 | an object is built only from a table that is the fill of the recorded environment and files, so it holds all eight keys |
| `FolderTable.PlatformFolders.GetDocumentsFolder` | sago/platform_folders.cpp:227-233 | the XDG_DOCUMENTS_DIR entry of the table filled at construction |
| `FolderTable.PlatformFolders.GetDesktopFolder` | sago/platform_folders.cpp:235-241 | the XDG_DESKTOP_DIR entry of the table filled at construction |
| `FolderTable.PlatformFolders.GetPicturesFolder` | sago/platform_folders.cpp:243-249 | the XDG_PICTURES_DIR entry of the table filled at construction |
| `FolderTable.PlatformFolders.GetDownloadFolder1` | sago/platform_folders.cpp:251-258 | the XDG_DOWNLOAD_DIR entry of the table filled at construction |
| `FolderTable.PlatformFolders.GetMusicFolder` | sago/platform_folders.cpp:260-266 | the XDG_MUSIC_DIR entry of the table filled at construction |
| `FolderTable.PlatformFolders.GetVideoFolder` | sago/platform_folders.cpp:268-274 | the XDG_VIDEOS_DIR entry of the table filled at construction |
| `FolderTable.PlatformFolders.GetSaveGamesFolder1` | sago/platform_folders.cpp:276-284 | the data home, resolved from the environment at call time |
| `FolderTable.MusicFolderDefault` | sago/platform_folders.cpp:260-266 | with an empty or missing `user-dirs.dirs` the music accessor returns HOME + "/Music" |
| `FolderTable.ConstructionIsDeterministic` | sago/platform_folders.cpp:207-218 | two objects built from the same environment and files hold identical tables |

## Left out

- The `_WIN32` branch (`GetWindowsFolder`, `SHGetFolderPath`): these are foreign OS calls.
- Real `getenv`, `std::ifstream` and `std::getline`. The environment and the file contents
  are parameters. Splitting a file into lines at newlines is not modelled.
- The `std::cerr` diagnostic for a skipped search-path token. The message text and the
  200-byte `snprintf` buffer of the relative-path error are also left out. The error keeps
  only the variable name and value.
- `new`/`delete` of `PlatformFoldersData`, the destructor, and the private copy constructor
  and assignment: these are memory management. Construction returns a `Result` that holds
  the object.
- In-place update through a reference parameter is modelled as a method that returns the
  new container. When a throw happens, the partly updated map is not modelled, because the
  constructor discards it.
- The order in which the `$HOME` expansion visits the entries is left out, because no
  outcome depends on it. In C++ the order is ascending key order.
- Environment values are C strings and so hold no NUL. The model does not restrict them.
  For NUL-free values it agrees with `strtok_r` and `envValue[0]`.
- `size_t` is taken to be 64 bits wide. For every string shorter than npos, the results of
  the line parser do not depend on the width.
- `UserDirsFile.AssignmentLine`, `UserDirsFile.LineWithoutEquals`, `UserDirsFile.LineEndingInEquals`, `UserDirsFile.LastAssignmentWins`: stated only for lines shorter than npos (`FitsSizeT`), which every std::string is.
- `FolderTable.FillDataFoldersAbsolute`: the accessors return a relative `user-dirs.dirs` value, or a value built from a relative HOME, unchanged. The code does not check these values; the header says the Linux version "assumes that the config is correct" (sago/platform_folders.h:112). So absoluteness is proved only under those conditions.
- `UserDirsFile.AssignmentLine`: the key must not start with `#`, because such a line is a comment and is skipped.
- Other XDG Base Directory rules that the code does not follow are modelled as the code
  behaves:
  - An empty XDG_DATA_HOME or XDG_CONFIG_HOME is rejected as relative instead of being
    treated as unset.
  - An empty XDG_DATA_DIRS or XDG_CONFIG_DIRS appends nothing instead of the default.

## Findings

| source | as written | input that shows it | evidently intended | confidence | as-written member | corrected member |
|---|---|---|---|---|---|---|
| sago/platform_folders.cpp:147 | `getCacheDir` reads the override from XDG_CONFIG_HOME | HOME=/home/u, XDG_CACHE_HOME=/var/cache/u gives /home/u/.cache; any XDG_CONFIG_HOME makes the cache directory the config directory | XDG_CACHE_HOME, as the XDG Base Directory Specification and the header's "can be configured" say | high; not executed | `BaseDirs.CacheDirCounterexample` | `BaseDirs.CacheDirXdgHonoursCacheHome` |
