# Automatic Wii U homebrew setup, modelled in Dafny

This project models the logic of a small Wii U homebrew installer. It
downloads the Tiramisu or Aroma environments and their tools, unpacks them
onto the SD card, and removes the temporary archives. Two programs are
modelled:

- source/main.cpp is interactive. It has a main menu with three branches
  (Tiramisu, vWii files, Aroma) and a feature menu for Aroma. It also has the
  `mkdir_p` directory helper and a miniz-based `extract_package`.
- source/main.c is non-interactive. It runs one fixed script. It has the
  `make_file_path` helper, a skip list, and an `extract_package` based on
  zip/zip.h.

Both programs share the application lifecycle gate of source/state.cpp.

The files are:

- `filesystem.dfy` (`FileSystem`): the SD card as a flat map from paths to
  `Dir`/`File`, with `stat` and a `mkdir` that can fail. Also the
  left-to-right scan for '/' separators.
- `lifecycle.dfy` (`Lifecycle`): the `APP_STATE` machine. It is a class `App`
  whose `state` field is overwritten by the home-button callback, by
  `AppRunning` and by the `shutdownState` loop.
- `script.dfy` (`Script`): the return code of `downloadFile`, and the install
  script pattern shared by every branch: download, optionally unpack, `goto
  done` on the first failed download, and clean up at the end. A script is
  a profile of packages. Running it yields the trace of actions performed.
- `menu.dfy` (`Menu`): cursor movement, the feature checkboxes, and the
  `packages=` query strings of the two Aroma download URLs.
- `archive_cpp.dfy` (`ArchiveCpp`): `mkdir_p` and the C++ `extract_package`.
- `archive_c.dfy` (`ArchiveC`): `skip_file_list`, `make_file_path` and the C
  `extract_package`.
- `session.dfy` (`Session`): frames of the polling loops, and the `done` path
  (wait while running, then shut down).
- `installer_cpp.dfy` (`InstallerCpp`): the three profiles of main.cpp, both
  menu loops, and `main` as a class over `cursorPos` and the lifecycle
  object.
- `installer_c.dfy` (`InstallerC`): the profile and `main` of main.c.

Several things are inputs of the model rather than computed by it:

- the outcome of every `downloadFile` call;
- the archive entries;
- the statuses the platform reports;
- the buttons triggered in each frame;
- the paths on which `mkdir` fails for reasons other than the path itself,
  given as a `denied` set.

## Model

| member | source | states |
|---|---|---|
| Lifecycle.Ordinal | source/state.cpp:4-10 | the enumerator value is 0 exactly for STOPPING and lies in 0..4 |
| Lifecycle.AsBool | source/state.cpp:49 | returning the state as `bool` gives false exactly in STOPPING |
| Lifecycle.Step | source/state.cpp:19-50 | once STOPPED, or off the main core, nothing changes; EXITING moves every other state to STOPPED, and STOPPED is reached only that way; only EXITING leaves STOPPING and nothing enters it; IN_FOREGROUND moves BACKGROUND to RETURNING and RUNNING/RETURNING to RUNNING; RELEASE_FOREGROUND and IN_BACKGROUND move every other state to BACKGROUND |
| Lifecycle.App.constructor | source/state.cpp:12 | the application starts RUNNING |
| Lifecycle.App.HomeButtonCallback | source/state.cpp:14-17 | sets STOPPING whatever the state, returns 0 |
| Lifecycle.App.AppRunning | source/state.cpp:19-50 | the new state is the transition of the old one, and the result is false exactly in STOPPING |
| Lifecycle.App.ShutdownState | source/state.cpp:57-63 | ends in STOPPED, after polling up to and including the first EXITING report, or at once when already STOPPED |
| FileSystem.Stat | source/main.cpp:119-123 | a path exists exactly when it is a non-empty key of the map, with the kind stored there |
| FileSystem.Mkdir | source/main.c:104-105 | succeeds exactly for a non-empty, missing, not denied path whose parents are directories, and then adds only that directory; fails with EEXIST exactly when the parents are directories and the path exists |
| FileSystem.MkdirKeepsTree | source/main.cpp:132 | a successful `mkdir` keeps every object's parents directories |
| FileSystem.SlashPrefixesShape | source/main.c:101 | the separator scan visits exactly the prefixes ending before a '/' at or after the start index, each shorter than the path, shortest first |
| FileSystem.SlashPrefixesEndAtSlash | source/main.c:101 | every prefix the separator scan visits ends just before a '/' at or after the start index |
| FileSystem.SlashPrefixesComplete | source/main.c:101 | the separator scan visits every prefix ending just before a '/' at or after the start index |
| FileSystem.SlashPrefixesIncreasing | source/main.c:101 | the separator scan visits the prefixes shortest first |
| FileSystem.NoSlashNoPrefixes | source/main.c:101 | a path with no '/' after the start index gives no prefix |
| FileSystem.SlashPrefixes | source/main.c:101 | the scan from a start index yields at most one prefix per remaining character, and none from the end of the path |
| Script.DownloadFile | source/main.cpp:193-247 | returns 1 exactly when library initialisation or the transfer fails; a destination that cannot be opened yields 0 |
| Script.PackageActions | source/main.cpp:291-302 | a successful download is followed by an unpack exactly for archive packages |
| Script.Completed | source/main.cpp:291-343 | downloads that all succeed perform no `remove` |
| Script.Removes | source/main.cpp:341-343 | the cleanup removes each listed archive, in order |
| Script.FirstFailure | source/main.cpp:291-298 | the index of the first download returning 1: all before it returned 0 |
| Script.RunPackages | source/main.cpp:291-337 | the run finishes exactly when no download fails; otherwise it performs the completed packages and then the failing download, and nothing more |
| Script.RunProfile | source/main.cpp:291-343 | as above, with the cleanup appended only when every download succeeded; any `remove` implies that all downloads returned 0 |
| Script.CleanupLast | source/main.cpp:341-343 | when every download succeeds, the trace ends with the removes of the cleanup list, and each listed archive is removed |
| Script.NoRemoveAfterFailure | source/main.cpp:291-298 | when a download fails, the trace holds no `remove` |
| Script.CleanupAtEnd | source/main.cpp:291-343 | an archive on the cleanup list is removed exactly when every download returned 0, and the cleanup then comes last |
| Script.DownloadsAttempted | source/main.cpp:291-343 | the number of downloads attempted is the index of the first failure plus one, or all of them |
| Menu.CursorStep | source/main.cpp:280-283 | DOWN moves down unless on the last item, then UP moves up unless on the first; the cursor stays in range and moves by at most one |
| Menu.CursorAfter | source/main.cpp:272-286 | over any frames the cursor stays in range |
| Menu.Toggle | source/main.cpp:435-461 | A negates exactly the checkbox under the cursor and keeps the other six; an out-of-range cursor changes nothing |
| Menu.ToggleTwice | source/main.cpp:435-461 | toggling the same line twice restores every checkbox |
| Menu.SelectedPayloads | source/main.cpp:468-472 | `environmentloader` is always requested first |
| Menu.PayloadUrl | source/main.cpp:467-472 | the URL starts with the Aroma API prefix and fits the 1024-byte buffer |
| Menu.PluginUrl | source/main.cpp:499-503 | the URL starts with the Aroma API prefix and fits the 1024-byte buffer |
| Menu.PayloadQueryIsJoin | source/main.cpp:468-472 | the payload query is `environmentloader` and the ticked payloads in menu order, separated by commas |
| Menu.PluginQueryShape | source/main.cpp:499-503 | the plugin query is the ticked plugins in menu order separated by commas, with a leading comma exactly when Bloopair is not ticked and another plugin is |
| Menu.Flag | source/main.cpp:436-459 | with no checkbox ticked, every flag reads false |
| Menu.PayloadQuery | source/main.cpp:468-472 | starts with `environmentloader`, is exactly that with nothing ticked, and fits the longest combination |
| Menu.PluginQuery | source/main.cpp:499-503 | empty exactly when no plugin is ticked; starts with `bloopair` when Bloopair is ticked and with a comma otherwise; fits the longest combination |
| ArchiveCpp.Trimmed | source/main.cpp:113-116 | at most one trailing '/' is removed |
| ArchiveCpp.TestPath | source/main.cpp:129-138 | a directory passes, a missing path is created, a file or a failed `mkdir` fails; nothing else changes |
| ArchiveCpp.MakeParents | source/main.cpp:126-141 | every prefix ending before a '/' after index 0 becomes a directory, exactly when none is blocked; only such directories are added |
| ArchiveCpp.MkdirP | source/main.cpp:99-153 | returns -1 on an empty or 256-character path without touching the file system, and 0 at once on an existing directory; otherwise 0 exactly when no prefix and not the path itself is a file or cannot be created, and then the path and all its parents are directories; only directories along the path are added |
| ArchiveCpp.LastSlash | source/main.cpp:175 | the index of the last '/' in the name, or -1 |
| ArchiveCpp.ParentOf | source/main.cpp:175-178 | the directory part of an entry name is a proper prefix of the name |
| ArchiveCpp.Fails | source/main.cpp:164-185 | a directory entry fails exactly when its header cannot be read; an entry whose header reads and whose data extracts never fails |
| ArchiveCpp.FirstBad | source/main.cpp:162-185 | the first entry whose header cannot be read, or a file that cannot be extracted |
| ArchiveCpp.FileNames | source/main.cpp:168 | only entries that are not directories are written |
| ArchiveCpp.MakeParentDir | source/main.cpp:175-179 | for a name with a '/' after index 0, `mkdir_p` on the part before the last '/' adds only directories along that part, and when no prefix of that part is a file or denied the part becomes a directory; otherwise nothing changes |
| ArchiveCpp.ExtractEntries | source/main.cpp:162-188 | the entry loop stops at the first failing entry and has written the non-directory entries before it; only directories are added, and each is a leading part of the parent of a file entry handled, the failing one included, so directory entries create nothing; each written file whose parent could be made has its parent directory |
| ArchiveCpp.ExtractPackage | source/main.cpp:155-191 | returns 0 exactly when the archive opens and no entry fails; writes the non-directory entries before the first failure, in order; an archive that does not open changes nothing; whatever `mkdir_p` returns, only directories are added, each a leading part of the parent of a file entry up to the first failing one; each written file whose parent could be made has its parent directory |
| ArchiveC.NestedNamesNotSkipped | source/main.c:26-33 | a name containing '/' is never skipped |
| ArchiveC.SkipTest | source/main.c:125-127 | the `skip |=` loop skips exactly the names on the list |
| ArchiveC.IsSkipped | source/main.c:125-127 | a skipped name has 9 to 16 characters and no '/' |
| ArchiveC.ExtractOne | source/main.c:125-131 | one entry adds at most its own name to the written list, never a skipped name, and a skipped entry changes nothing |
| ArchiveC.ExtractEntry | source/main.c:125-131 | the loop body for one entry follows the reference step: a listed name changes nothing, any other makes its parents and is written when `make_file_path` returns 1 |
| ArchiveC.MkdirAll | source/main.c:101-109 | a run of `mkdir` calls that gets through makes one call per path; a failed one made at least one |
| ArchiveC.MkdirAllGrows | source/main.c:104 | the calls keep existing objects, add only directories at the paths called, and keep the file system a tree |
| ArchiveC.MkdirAllSnoc | source/main.c:101-109 | one more call after a run that got through: fails only on a non-EEXIST error |
| ArchiveC.MkdirAllStops | source/main.c:106-107 | after a failure no further call is made |
| ArchiveC.MakeFilePath | source/main.c:97-112 | returns 1 exactly when no call fails other than with EEXIST; the calls are the separator prefixes up to the first such failure |
| ArchiveC.CallsAreParents | source/main.c:101-109 | the calls are proper prefixes ending at a '/', shortest first, and never the whole name |
| ArchiveC.PrefixesSucceed | source/main.c:101-111 | when no prefix is denied or a file, `make_file_path` returns 1 |
| ArchiveC.NoSlashNoCalls | source/main.c:101 | a name with no '/' after index 0 makes no call and returns 1 |
| ArchiveC.Unskipped | source/main.c:125-130 | the entries not on the skip list |
| ArchiveC.ExtractAll | source/main.c:117-134 | an archive of skipped entries writes nothing and changes nothing |
| ArchiveC.ExtractAllSnoc | source/main.c:117-134 | extracting one more entry continues the extraction of the earlier ones |
| ArchiveC.ExtractAllGrows | source/main.c:117-134 | extraction only adds directories and keeps the file system a tree |
| ArchiveC.WrittenInOrder | source/main.c:117-134 | the written names are a subsequence of the entries that are not skipped |
| ArchiveC.AllWritten | source/main.c:130-131 | when no parent directory is denied or a file, every entry that is not skipped is written, in order |
| ArchiveC.NestedPrefixes | source/main.c:101 | the separator scan of `a/b/c.txt` visits `a` then `a/b` |
| ArchiveC.NestedMkdirs | source/main.c:101-109 | on an empty card `mkdir` of `a` then `a/b` both succeed |
| ArchiveC.NestedEntry | source/main.c:101-109 | `a/b/c.txt` creates `a` then `a/b` and nothing else |
| ArchiveC.ExtractPackage | source/main.c:114-136 | visits every entry in order and matches the reference extraction; an archive that does not open writes nothing |
| Session.Poll | source/state.cpp:14-50 | a home press not followed by EXITING leaves STOPPING; EXITING leaves STOPPED |
| Session.PollFrame | source/state.cpp:19-50 | one callback and `AppRunning` call; reports false exactly in STOPPING |
| Session.WaitRun | source/main.cpp:566-567 | the wait ends only in STOPPING, or runs out of frames |
| Session.WaitEndsAtHome | source/main.cpp:566-567 | the wait ends on the frame of the first home press, having read exactly the frames up to it |
| Session.NoHomeNeverCloses | source/main.cpp:566-567 | outside STOPPING, frames without a home press never end the wait |
| Session.StoppedWaitsForHome | source/main.cpp:566-567 | once STOPPED, the wait never ends without a home press |
| Session.Done | source/main.cpp:561-571 | the wait follows the reference wait, and when it ends the application shuts down in STOPPED |
| InstallerCpp.Aroma | source/main.cpp:465-558 | six packages; the payload and plugin URLs come from the checkboxes; only the signature patches are not unpacked |
| InstallerCpp.MainMenuRun | source/main.cpp:272-286 | the cursor stays in 0..2; leaving with A means A was triggered on the last frame read, and leaving by lifecycle means STOPPING |
| InstallerCpp.MainMenuStopsAtA | source/main.cpp:284-285 | no frame before the last one read triggered A |
| InstallerCpp.MainMenuCursor | source/main.cpp:280-283 | the cursor is the movement of every frame read while running |
| InstallerCpp.FeatureMenuRun | source/main.cpp:409-464 | the cursor stays in 0..6; leaving with PLUS means PLUS was triggered on the last frame read |
| InstallerCpp.FeatureMenuStopsAtPlus | source/main.cpp:462-463 | no frame before the last one read triggered PLUS |
| InstallerCpp.NoAKeepsFeatures | source/main.cpp:435-461 | without an A trigger no checkbox changes |
| InstallerCpp.BranchOnlyOnA | source/main.cpp:288 | an install branch runs exactly when the main menu was left with A |
| InstallerCpp.Branch | source/main.cpp:284-288 | a non-empty branch means the main menu was left with A |
| InstallerCpp.MenusRun | source/main.cpp:272-464 | the menus read at most the frames given, at least those of the main menu; the feature menu is entered only on A at the third item |
| InstallerCpp.TiramisuProfile | source/main.cpp:291-343 | four packages, and the cleanup removes exactly the three archives unpacked, each once |
| InstallerCpp.VWiiProfile | source/main.cpp:344-403 | four packages, and the cleanup removes exactly the three archives unpacked, each once |
| InstallerCpp.AromaProfile | source/main.cpp:465-558 | whatever is ticked, the cleanup removes exactly the five archives unpacked, each once |
| InstallerCpp.FirstActionIsFirstDownload | source/main.cpp:291-298 | every branch starts with the download of its first package |
| InstallerCpp.TiramisuInstalls | source/main.cpp:288-343 | with all downloads succeeding, the Tiramisu branch performs its ten actions in order |
| InstallerCpp.VWiiStopsAtFailure | source/main.cpp:344-369 | a failed second download in the vWii branch ends the branch right there |
| InstallerCpp.Installer.constructor | source/main.cpp:34 | `cursorPos` starts at 0 and the application at RUNNING |
| InstallerCpp.Installer.MainMenu | source/main.cpp:272-286 | the loop matches the reference main menu run |
| InstallerCpp.Installer.FeatureMenu | source/main.cpp:405-464 | the checkboxes start unticked and the cursor at 0; the loop matches the reference feature menu run |
| InstallerCpp.Installer.Install | source/main.cpp:288-559 | the actions are those of the branch chosen in the menus; the state, cursor and frames read afterwards are those of the reference menu run |
| InstallerCpp.Installer.Run | source/main.cpp:261-576 | the actions are those of the chosen branch; the wait ends exactly as the reference wait over the frames left after the menus, and then the application is STOPPED |
| InstallerC.SetupIsTiramisuBranch | source/main.c:215-268 | the script is the Tiramisu branch of main.cpp except for the SaveMii server |
| InstallerC.SetupProfile | source/main.c:215-268 | four packages, and the cleanup removes exactly the three archives unpacked, each once |
| InstallerC.SetupCleanup | source/main.c:215-268 | the archives are removed exactly when all four downloads succeed, and then all three, last; at most four downloads |
| InstallerC.Run | source/main.c:196-284 | the actions are the script's, and the wait ends exactly as the reference wait from RUNNING |

## Behaviour as the code has it

- `AppRunning` returns the state converted to `bool`. STOPPING is the 0
  enumerator, so the function reports true in STOPPED. Once EXITING has been
  seen, a `while (AppRunning())` loop therefore ends only if the home-button
  callback fires again. `Session.StoppedWaitsForHome` states this.
- `downloadFile` reports success when the destination file cannot be opened.
- The cleanup `remove` calls are reached only after every download of the
  branch succeeded. A failed download jumps over them.
- In main.cpp the `skip_file_list` array (six names, including `src`) is
  declared but never read. The C++ `extract_package` skips only directory
  entries.
- After the feature menu, the Aroma downloads start however that menu
  ended, including when `AppRunning` reported false.
- In main.c, `strchr(_name + 1, '/')` on an empty name reads past the
  terminator. The model treats an empty name as having no separator.
- main.cpp:288 reads `input.get(TRIGGER, PAD_BUTTON_A)` even when the main
  menu loop ended before any `input.read()`. `Input input;` (main.cpp:271)
  has no constructor in source/input.h, so that read sees indeterminate
  state. `InstallerCpp.Branch` takes it as "no branch".

## Left out

- Network I/O. The libcurl transfer, `initSocket` and `writefunction` are not
  modelled; only the 0/1 result of `downloadFile` is kept. What a download
  writes to the SD card is not modelled.
- The miniz and zip/zip.h archive libraries. Entries and their per-entry
  outcomes are inputs. The contents written for an entry are not modelled:
  a written file is recorded in the `written` trace, not entered in the file
  system map.
- Unpacking is a trace action. The installers' traces record `Extract(path)`;
  the extractors are modelled separately on abstract archives. The result of
  `extract_package` never affects control flow in either program.
- Console output: `WHBLog*`, `drawToScreen`, `clearScreen` and `drawHeader`.
- Platform calls with no logic visible in the source: `romfsInit`,
  `romfsExit`, `__preinit_user`, `revertMainHook`, `ProcUIShutdown`,
  `OSForceFullRelaunch`, `SYSLaunchMenu`, `ProcUIRegisterCallback` and
  `OSEnableHomeButtonMenu`.
- Concurrency. The `volatile` qualifier and the asynchronous home-button
  callback are not modelled. The callback runs at most once per frame,
  before that frame's `AppRunning` call.
- The bodies of source/input.h. It contains only declarations, so the
  triggers of each frame are an input. The installer always runs on the
  main core.
- Allocation failure. The `malloc` in the C++ `extract_package` and the
  `strdup` in `make_file_path` are taken to succeed.
- Resource leaks on early returns (an open `FILE*`, an archive reader that
  is never ended).
- Path normalisation. Paths are compared as strings.
- The `mode` argument of `mkdir`. Errors of `stat` other than a missing
  path.
- `remove` failures. `remove` is a trace action only.
- In the C `extract_package`, the result of `zip_entry_openbyindex`, a NULL
  `zip_entry_name` and the result of `zip_entry_fread`.
- Session.WaitRun: the wait is modelled over a finite list of frames.
  Running out of frames is a model artifact with no counterpart in the
  source, where the loops can run for ever.
- InstallerCpp.MainMenuRun: the menus also stop when the frames run out.
  Such a run performs no install branch in the main menu, and goes on to
  the downloads in the feature menu.
- InstallerCpp.Installer.Install: one download outcome is supplied per
  download of the longest branch (six); shorter branches use the first four.
- Lifecycle.App.ShutdownState: the shutdown feed must hold an EXITING
  report (or the application be STOPPED already). On a feed without one, the
  `while (app != APP_STATE_STOPPED)` loop of state.cpp:60-62 runs for ever;
  that run is not modelled. The same requirement is on `Session.Done`,
  `InstallerCpp.Installer.Run` and `InstallerC.Run`.
