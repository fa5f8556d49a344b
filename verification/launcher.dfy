/** src/open.py: locating the Discord executable in its default Windows
    install directory, and the platform check of `open_discord`. */
module Launcher {
  import opened Outcomes
  import opened Seqs
  import opened Text
  import opened Exceptions

  /** `home / "AppData/Local/Discord/"` */
  function DiscordDir(home: Path): Path {
    Child(Child(Child(home, "AppData"), "Local"), "Discord")
  }

  const AppFolderPrefix := "app-"
  const ExeName := "Discord.exe"
  const NotFoundMessage := "Could not located Discord.exe"
  const UnsupportedMessage := "Application only supports Windows at the moment"

  predicate IsAppFolder(name: string) {
    StartsWith(name, AppFolderPrefix)
  }

  /** `_get_exe_path()`, given the home directory and what `os.listdir` returns
      for the install directory, in the order it returns it. */
  function GetExePath(home: Path, listing: seq<string>): (r: Result<Path, Error>)
    ensures r.Err? <==> forall i :: 0 <= i < |listing| ==> !IsAppFolder(listing[i])
    ensures r.Err? ==> r.error == DiscordNotFoundError(NotFoundMessage)
    ensures r.Ok? ==> exists i :: (0 <= i < |listing| && IsAppFolder(listing[i])
      && (forall j :: 0 <= j < i ==> !IsAppFolder(listing[j]))
      && r.value == Path(home.anchor, home.parts + ["AppData", "Local", "Discord", listing[i], ExeName]))
  {
    match FirstIndex(listing, IsAppFolder)
    case None => Err(DiscordNotFoundError(NotFoundMessage))
    case Some(i) => Ok(Child(Child(DiscordDir(home), listing[i]), ExeName))
  }

  /** Entries ahead of the first app folder that are not app folders themselves
      do not change the result. */
  lemma SkipsOtherEntries(home: Path, others: seq<string>, listing: seq<string>)
    requires forall i :: 0 <= i < |others| ==> !IsAppFolder(others[i])
    ensures GetExePath(home, others + listing) == GetExePath(home, listing)
  {
    FirstIndexSkip(others, listing, IsAppFolder);
    if FirstIndex(listing, IsAppFolder).Some? {
      var i := FirstIndex(listing, IsAppFolder).value;
      assert (others + listing)[i + |others|] == listing[i];
    }
  }

  /** The first app folder in listing order wins, even when a later one is newer. */
  lemma FirstAppFolderWins(home: Path)
    ensures GetExePath(home, ["settings.json", "app-1.0.9", "app-1.0.10"]) ==
      Ok(Path(home.anchor, home.parts + ["AppData", "Local", "Discord", "app-1.0.9", "Discord.exe"]))
    ensures GetExePath(home, ["Update.exe", "packages"]) == Err(DiscordNotFoundError("Could not located Discord.exe"))
  {
    assert "settings.json"[..4][0] == 's' && "app-1.0.9"[..4] == AppFolderPrefix;
    assert "Update.exe"[..4][0] == 'U' && "packages"[..4][0] == 'p';
  }

  /** `open_discord()`: anything but Windows is refused; on Windows the
      locate-or-launch step is commented out, so nothing further happens. */
  function OpenDiscord(platform: string): (r: Outcome<Error>)
    ensures r.Pass? <==> platform == "Windows"
    ensures r.Fail? ==> r.error == OSNotSupportedError(UnsupportedMessage)
  {
    if platform != "Windows" then Fail(OSNotSupportedError(UnsupportedMessage)) else Pass
  }
}
