/** The Unix `PlatformFolders` object: a table from the eight XDG_*_DIR names to paths, built
    once at construction by `PlatformFoldersFillData` (defaults, then `user-dirs.dirs`, then
    `$HOME` expansion) and read by the accessors. */
module FolderTable {
  import opened Environ
  import opened CxxString
  import opened BaseDirs
  import opened UserDirsFile

  const DocumentsKey := "XDG_DOCUMENTS_DIR"
  const DesktopKey := "XDG_DESKTOP_DIR"
  const DownloadKey := "XDG_DOWNLOAD_DIR"
  const MusicKey := "XDG_MUSIC_DIR"
  const PicturesKey := "XDG_PICTURES_DIR"
  const PublicShareKey := "XDG_PUBLICSHARE_DIR"
  const TemplatesKey := "XDG_TEMPLATES_DIR"
  const VideosKey := "XDG_VIDEOS_DIR"

  const FolderKeys: set<string> :=
    {DocumentsKey, DesktopKey, DownloadKey, MusicKey, PicturesKey, PublicShareKey, TemplatesKey, VideosKey}

  const HomeVar := "$HOME"

  /** The files as far as construction reads them: for each readable path, the lines
      `std::getline` yields. A path that cannot be opened yields no lines. */
  type FileSystem = map<string, seq<string>>

  function ReadLines(files: FileSystem, path: string): seq<string> {
    if path in files then files[path] else []
  }

  function UserDirsPath(configHome: string): string {
    configHome + "/user-dirs.dirs"
  }

  /** The eight defaults, written over whatever the table held. */
  function SeedDefaults(folders: Table): (r: Table)
    ensures r.Keys == folders.Keys + FolderKeys
    ensures forall k :: k in folders && k !in FolderKeys ==> r[k] == folders[k]
    ensures r[DocumentsKey] == HomeVar + "/Documents" && r[DesktopKey] == HomeVar + "/Desktop"
    ensures r[DownloadKey] == HomeVar + "/Downloads" && r[MusicKey] == HomeVar + "/Music"
    ensures r[PicturesKey] == HomeVar + "/Pictures" && r[PublicShareKey] == HomeVar + "/Public"
    ensures r[TemplatesKey] == HomeVar + "/.Templates" && r[VideosKey] == HomeVar + "/Videos"
  {
    folders[DocumentsKey := HomeVar + "/Documents"][DesktopKey := HomeVar + "/Desktop"]
           [DownloadKey := HomeVar + "/Downloads"][MusicKey := HomeVar + "/Music"]
           [PicturesKey := HomeVar + "/Pictures"][PublicShareKey := HomeVar + "/Public"]
           [TemplatesKey := HomeVar + "/.Templates"][VideosKey := HomeVar + "/Videos"]
  }

  /** `value.compare(0, 5, "$HOME") == 0`. */
  predicate HasHomePrefix(value: string) {
    Substr(value, 0, 5) == Ok(HomeVar)
  }

  /** The comparison matches exactly the values whose first five characters are `$HOME`,
      whatever follows them. */
  lemma HomePrefixMeansFirstFive(value: string)
    ensures HasHomePrefix(value) <==> |value| >= 5 && value[..5] == HomeVar
  {
  }

  /** The rewrite of one value: HOME in place of a leading `$HOME`. */
  function ExpandValue(value: string, home: string): (r: string)
    ensures !HasHomePrefix(value) ==> r == value
    ensures HasHomePrefix(value) ==> home <= r && r[|home|..] == value[5..]
    ensures IsAbsolute(home) ==> (IsAbsolute(r) <==> HasHomePrefix(value) || IsAbsolute(value))
  {
    if HasHomePrefix(value) then home + value[5..] else value
  }

  /** The expansion loop of `PlatformFoldersFillData` as a whole. HOME is needed, and its
      absence throws, only when some value starts with `$HOME`. */
  function ExpandHome(env: Environment, folders: Table): (r: Result<Table>)
    ensures r.Err? <==> Home !in env && exists k :: k in folders && HasHomePrefix(folders[k])
    ensures r.Err? ==> r.error == HomeNotDefined
    ensures r.Ok? ==> r.value.Keys == folders.Keys
    ensures r.Ok? ==> forall k :: k in folders && |folders[k]| >= 5 && folders[k][..5] == HomeVar ==>
                        r.value[k] == env[Home] + folders[k][5..]
    ensures r.Ok? ==> forall k :: k in folders && !(|folders[k]| >= 5 && folders[k][..5] == HomeVar) ==>
                        r.value[k] == folders[k]
  {
    if exists k :: k in folders && HasHomePrefix(folders[k]) then
      var home :- GetHome(env);
      Ok(map k | k in folders :: ExpandValue(folders[k], home))
    else
      Ok(folders)
  }

  /** `PlatformFoldersFillData` as a function of the environment, the files and the table it
      starts from. */
  function FillData(env: Environment, files: FileSystem, folders: Table): (r: Result<Table>)
    ensures r.Err? ==>
              r.error == HomeNotDefined || r.error == OutOfRange ||
              (XdgConfigHome in env && r.error == NotAbsolute(XdgConfigHome, env[XdgConfigHome]))
  {
    var seeded := SeedDefaults(folders);
    var configHome :- GetConfigHome(env);
    var filled :- ApplyLines(seeded, ReadLines(files, UserDirsPath(configHome)));
    ExpandHome(env, filled)
  }

  /** After a successful fill all eight keys are present. */
  lemma FillDataHasAllKeys(env: Environment, files: FileSystem, folders: Table)
    ensures FillData(env, files, folders).Ok? ==> FolderKeys <= FillData(env, files, folders).value.Keys
  {
    var seeded := SeedDefaults(folders);
    match GetConfigHome(env) {
      case Err(e) =>
      case Ok(configHome) =>
        ApplyLinesKeepsKeys(seeded, ReadLines(files, UserDirsPath(configHome)));
    }
  }

  /** A `user-dirs.dirs` line that, if it assigns one of the eight keys, gives it a value
      that is absolute or starts with `$HOME`. */
  predicate SetsUsableFolder(line: string) {
    var p := ParseLine(line);
    p.Ok? && p.value.Some? && p.value.value.0 in FolderKeys ==>
      IsAbsolute(p.value.value.1) || HasHomePrefix(p.value.value.1)
  }

  /** Every one of the eight keys present in the table is absolute or starts with `$HOME`. */
  predicate UsableFolders(folders: Table) {
    forall k :: k in FolderKeys && k in folders ==> IsAbsolute(folders[k]) || HasHomePrefix(folders[k])
  }

  /** The seeded defaults all start with `$HOME`. */
  lemma SeededFoldersUsable(folders: Table)
    ensures UsableFolders(SeedDefaults(folders))
  {
    var seeded := SeedDefaults(folders);
    forall k | k in FolderKeys
      ensures HasHomePrefix(seeded[k])
    {
      HomePrefixMeansFirstFive(seeded[k]);
      HomeVarParts(seeded[k][5..]);
    }
  }

  /** Reading lines that each keep the eight keys usable keeps the table usable. */
  lemma {:induction false} ApplyLinesKeepsUsable(folders: Table, lines: seq<string>)
    requires UsableFolders(folders)
    requires forall i :: 0 <= i < |lines| ==> SetsUsableFolder(lines[i])
    ensures ApplyLines(folders, lines).Ok? ==> UsableFolders(ApplyLines(folders, lines).value)
    decreases |lines|
  {
    if lines != [] {
      match ApplyLine(folders, lines[0]) {
        case Err(_) =>
        case Ok(next) =>
          assert UsableFolders(next) by {
            assert SetsUsableFolder(lines[0]);
          }
          assert forall i :: 0 <= i < |lines| - 1 ==> lines[1..][i] == lines[i + 1];
          ApplyLinesKeepsUsable(next, lines[1..]);
      }
    }
  }

  /** The accessors promise absolute paths. That holds when HOME is absolute and every
      `user-dirs.dirs` line that assigns one of the eight keys gives an absolute value or one
      starting with `$HOME`; otherwise the value is returned as the file has it. */
  lemma FillDataFoldersAbsolute(env: Environment, files: FileSystem)
    requires Home in env && IsAbsolute(env[Home]) && GetConfigHome(env).Ok?
    requires forall line :: line in ReadLines(files, UserDirsPath(GetConfigHome(env).value)) ==>
               SetsUsableFolder(line)
    ensures FillData(env, files, map[]).Ok? ==>
              forall k :: k in FolderKeys ==>
                k in FillData(env, files, map[]).value && IsAbsolute(FillData(env, files, map[]).value[k])
  {
    var seeded := SeedDefaults(map[]);
    var lines := ReadLines(files, UserDirsPath(GetConfigHome(env).value));
    SeededFoldersUsable(map[]);
    assert forall i :: 0 <= i < |lines| ==> lines[i] in lines;
    ApplyLinesKeepsUsable(seeded, lines);
    FillDataHasAllKeys(env, files, map[]);
    if FillData(env, files, map[]).Ok? {
      UsableFoldersExpand(env, ApplyLines(seeded, lines).value);
    }
  }

  /** With HOME absolute, expanding a usable table makes each of the eight keys absolute. */
  lemma UsableFoldersExpand(env: Environment, folders: Table)
    requires Home in env && IsAbsolute(env[Home])
    requires UsableFolders(folders) && FolderKeys <= folders.Keys
    ensures ExpandHome(env, folders).Ok?
    ensures forall k :: k in FolderKeys ==> IsAbsolute(ExpandHome(env, folders).value[k])
  {
    var t := ExpandHome(env, folders).value;
    forall k | k in FolderKeys
      ensures IsAbsolute(t[k])
    {
      HomePrefixMeansFirstFive(folders[k]);
    }
  }

  /** A config home that cannot be resolved makes the fill fail with that error. */
  lemma FillDataNeedsConfigHome(env: Environment, files: FileSystem, folders: Table)
    requires GetConfigHome(env).Err?
    ensures FillData(env, files, folders) == Err(GetConfigHome(env).error)
  {
  }

  /** With no `user-dirs.dirs` lines, the table is HOME followed by the default names. */
  lemma FillDataDefaults(env: Environment, files: FileSystem)
    requires Home in env && GetConfigHome(env).Ok?
    requires ReadLines(files, UserDirsPath(GetConfigHome(env).value)) == []
    ensures FillData(env, files, map[]).Ok?
    ensures var t := FillData(env, files, map[]).value;
            var home := env[Home];
            t.Keys == FolderKeys &&
            t[DocumentsKey] == home + "/Documents" && t[DesktopKey] == home + "/Desktop" &&
            t[DownloadKey] == home + "/Downloads" && t[MusicKey] == home + "/Music" &&
            t[PicturesKey] == home + "/Pictures" && t[PublicShareKey] == home + "/Public" &&
            t[TemplatesKey] == home + "/.Templates" && t[VideosKey] == home + "/Videos"
  {
    var seeded := SeedDefaults(map[]);
    assert ApplyLines(seeded, []) == Ok(seeded);
    assert HasHomePrefix(seeded[MusicKey]) by { HomePrefixMeansFirstFive(seeded[MusicKey]); }
    DefaultExpands(env, seeded, DocumentsKey, "/Documents");
    DefaultExpands(env, seeded, DesktopKey, "/Desktop");
    DefaultExpands(env, seeded, DownloadKey, "/Downloads");
    DefaultExpands(env, seeded, MusicKey, "/Music");
    DefaultExpands(env, seeded, PicturesKey, "/Pictures");
    DefaultExpands(env, seeded, PublicShareKey, "/Public");
    DefaultExpands(env, seeded, TemplatesKey, "/.Templates");
    DefaultExpands(env, seeded, VideosKey, "/Videos");
  }

  /** The parts of `$HOME` followed by `suffix`. */
  lemma HomeVarParts(suffix: string)
    ensures (HomeVar + suffix)[..5] == HomeVar && (HomeVar + suffix)[5..] == suffix
  {
  }

  /** One entry of the expansion: `$HOME` followed by `suffix` becomes HOME followed by it. */
  lemma DefaultExpands(env: Environment, folders: Table, key: string, suffix: string)
    requires Home in env && key in folders && folders[key] == HomeVar + suffix
    ensures ExpandHome(env, folders).Ok?
    ensures ExpandHome(env, folders).value[key] == env[Home] + suffix
  {
    HomeVarParts(suffix);
  }

  /** Without HOME the defaults cannot be expanded, so an empty `user-dirs.dirs` makes the
      fill fail even when XDG_CONFIG_HOME locates it. */
  lemma FillDataWithoutHome(env: Environment, files: FileSystem)
    requires Home !in env && GetConfigHome(env).Ok?
    requires ReadLines(files, UserDirsPath(GetConfigHome(env).value)) == []
    ensures FillData(env, files, map[]) == Err(HomeNotDefined)
  {
    var seeded := SeedDefaults(map[]);
    assert ApplyLines(seeded, []) == Ok(seeded);
    assert seeded[MusicKey][..5] == HomeVar;
  }

  /** A file line `XDG_MUSIC_DIR="$HOME/Tunes"` puts HOME + "/Tunes" in the music entry. */
  lemma FillDataMusicFromFile(env: Environment, files: FileSystem)
    requires Home in env && GetConfigHome(env).Ok?
    requires ReadLines(files, UserDirsPath(GetConfigHome(env).value)) == [Assignment(MusicKey, HomeVar + "/Tunes")]
    ensures FillData(env, files, map[]).Ok?
    ensures MusicKey in FillData(env, files, map[]).value
    ensures FillData(env, files, map[]).value[MusicKey] == env[Home] + "/Tunes"
  {
    var seeded := SeedDefaults(map[]);
    var line := Assignment(MusicKey, HomeVar + "/Tunes");
    AssignmentLine(seeded, MusicKey, HomeVar + "/Tunes");
    assert ApplyLines(seeded, [line]) == Ok(seeded[MusicKey := HomeVar + "/Tunes"]) by {
      assert [line][1..] == [];
    }
    HomeVarParts("/Tunes");
  }

  /** The iterator loop of `PlatformFoldersFillData`: visits every entry and rewrites a
      leading `$HOME` in place, calling `getHome` for each such entry. Each rewrite touches
      only its own entry and the only failure does not depend on the entry, so the order of
      the visit (ascending keys in std::map) does not matter. */
  method ExpandHomeEntries(env: Environment, folders: Table) returns (r: Result<Table>)
    ensures r == ExpandHome(env, folders)
  {
    var table := folders;
    var todo := folders.Keys;
    while todo != {}
      invariant todo <= folders.Keys && table.Keys == folders.Keys
      invariant forall k :: k in todo ==> table[k] == folders[k]
      invariant forall k :: k in folders && k !in todo && HasHomePrefix(folders[k]) ==>
                  Home in env && table[k] == env[Home] + folders[k][5..]
      invariant forall k :: k in folders && k !in todo && !HasHomePrefix(folders[k]) ==>
                  table[k] == folders[k]
      decreases todo
    {
      var k :| k in todo;
      var value := table[k];
      if Substr(value, 0, 5) == Ok(HomeVar) {
        var home :- GetHome(env);
        table := table[k := home + Substr(value, 5, NPos).value];
      }
      todo := todo - {k};
    }
    if exists k :: k in folders && HasHomePrefix(folders[k]) {
      assert table == map k | k in folders :: ExpandValue(folders[k], env[Home]);
    } else {
      assert table == folders;
    }
    return Ok(table);
  }

  /** `PlatformFoldersFillData`: seeds the defaults, reads `<config home>/user-dirs.dirs` over
      them, then expands `$HOME`. The table is passed in and its new value returned; a throw
      from any step ends the fill. */
  method PlatformFoldersFillData(env: Environment, files: FileSystem, folders: Table)
    returns (r: Result<Table>)
    ensures r == FillData(env, files, folders)
  {
    var table := folders;
    table := table[DocumentsKey := HomeVar + "/Documents"];
    table := table[DesktopKey := HomeVar + "/Desktop"];
    table := table[DownloadKey := HomeVar + "/Downloads"];
    table := table[MusicKey := HomeVar + "/Music"];
    table := table[PicturesKey := HomeVar + "/Pictures"];
    table := table[PublicShareKey := HomeVar + "/Public"];
    table := table[TemplatesKey := HomeVar + "/.Templates"];
    table := table[VideosKey := HomeVar + "/Videos"];
    var configHome :- GetConfigHome(env);
    var filled :- PlatformFoldersAddFromFile(ReadLines(files, UserDirsPath(configHome)), table);
    r := ExpandHomeEntries(env, filled);
  }

  /** The Unix `PlatformFolders`: the table built at construction, immutable afterwards.
      `env` and `files` record what construction read. */
  class PlatformFolders {
    ghost const env: Environment
    ghost const files: FileSystem
    const folders: Table

    ghost predicate Valid() {
      FillData(env, files, map[]) == Ok(folders) && FolderKeys <= folders.Keys
    }

    constructor (ghost env: Environment, ghost files: FileSystem, folders: Table)
      requires FillData(env, files, map[]) == Ok(folders)
      ensures Valid() && this.env == env && this.files == files && this.folders == folders
    {
      this.env := env;
      this.files := files;
      this.folders := folders;
      new;
      FillDataHasAllKeys(env, files, map[]);
    }

    /** `getDocumentsFolder`: the XDG_DOCUMENTS_DIR entry built at construction. */
    function GetDocumentsFolder(): (r: string)
      requires Valid()
      ensures r == FillData(env, files, map[]).value[DocumentsKey]
    {
      folders[DocumentsKey]
    }

    /** `getDesktopFolder`: the XDG_DESKTOP_DIR entry. */
    function GetDesktopFolder(): (r: string)
      requires Valid()
      ensures r == FillData(env, files, map[]).value[DesktopKey]
    {
      folders[DesktopKey]
    }

    /** `getPicturesFolder`: the XDG_PICTURES_DIR entry. */
    function GetPicturesFolder(): (r: string)
      requires Valid()
      ensures r == FillData(env, files, map[]).value[PicturesKey]
    {
      folders[PicturesKey]
    }

    /** `getDownloadFolder1`: the XDG_DOWNLOAD_DIR entry. */
    function GetDownloadFolder1(): (r: string)
      requires Valid()
      ensures r == FillData(env, files, map[]).value[DownloadKey]
    {
      folders[DownloadKey]
    }

    /** `getMusicFolder`: the XDG_MUSIC_DIR entry. */
    function GetMusicFolder(): (r: string)
      requires Valid()
      ensures r == FillData(env, files, map[]).value[MusicKey]
    {
      folders[MusicKey]
    }

    /** `getVideoFolder`: the XDG_VIDEOS_DIR entry. */
    function GetVideoFolder(): (r: string)
      requires Valid()
      ensures r == FillData(env, files, map[]).value[VideosKey]
    {
      folders[VideosKey]
    }

    /** `getSaveGamesFolder1`: not part of the table; the data home, resolved from the
        environment at the time of the call. */
    function GetSaveGamesFolder1(currentEnv: Environment): (r: Result<string>)
      ensures r == GetDataHome(currentEnv)
    {
      GetDataHome(currentEnv)
    }
  }

  /** The constructor: fills a fresh, empty table; if the fill throws, no object exists. */
  method NewPlatformFolders(env: Environment, files: FileSystem) returns (r: Result<PlatformFolders>)
    ensures r.Err? <==> FillData(env, files, map[]).Err?
    ensures r.Err? ==> r.error == FillData(env, files, map[]).error
    ensures r.Ok? ==> fresh(r.value) && r.value.Valid() && r.value.env == env && r.value.files == files
  {
    var folders :- PlatformFoldersFillData(env, files, map[]);
    var pf := new PlatformFolders(env, files, folders);
    return Ok(pf);
  }

  /** With an empty or missing `user-dirs.dirs`, the music folder is HOME + "/Music". */
  lemma MusicFolderDefault(pf: PlatformFolders)
    requires pf.Valid() && Home in pf.env && GetConfigHome(pf.env).Ok?
    requires ReadLines(pf.files, UserDirsPath(GetConfigHome(pf.env).value)) == []
    ensures pf.GetMusicFolder() == pf.env[Home] + "/Music"
  {
    FillDataDefaults(pf.env, pf.files);
  }

  /** Two objects built from the same environment and files hold the same table. */
  lemma ConstructionIsDeterministic(a: PlatformFolders, b: PlatformFolders)
    requires a.Valid() && b.Valid() && a.env == b.env && a.files == b.files
    ensures a.folders == b.folders
  {
  }
}
