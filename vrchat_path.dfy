/**
 * The menu command `FixPath`: finds VRChat.exe in the usual Steam locations and stores it as
 * the SDK's client path preference. The file system is the set of paths that exist.
 */
module VRChatPath {
  import opened Unity

  const PrimaryPath: string := @"C:\Program Files (x86)\Steam\steamapps\common\VRChat\VRChat.exe"

  const FallbackPaths: seq<string> := [
    @"C:\Program Files\Steam\steamapps\common\VRChat\VRChat.exe",
    @"D:\Steam\steamapps\common\VRChat\VRChat.exe",
    @"E:\Steam\steamapps\common\VRChat\VRChat.exe"
  ]

  /** Every location the command looks at, in the order it looks. */
  function Candidates(): (r: seq<string>)
    ensures |r| == 4 && r[0] == PrimaryPath && r[1..] == FallbackPaths
  {
    [PrimaryPath] + FallbackPaths
  }

  predicate Exists(files: set<string>, path: string) {
    path in files
  }

  /** The path the command settles on: the primary one when it exists, else the first fallback that does. */
  function ClientPath(files: set<string>): (r: Option<string>)
    ensures r.Some? ==> r.value in files && r.value in Candidates()
    ensures r.None? <==> forall k :: 0 <= k < |Candidates()| ==> Candidates()[k] !in files
  {
    if PrimaryPath in files then Some(PrimaryPath)
    else match First(FallbackPaths, p => Exists(files, p))
      case None => None
      case Some(k) => Some(FallbackPaths[k])
  }

  /** The command's choice is the first candidate that exists, in the order listed. */
  lemma ClientPathIsFirstCandidate(files: set<string>)
    ensures ClientPath(files).Some? ==>
      exists k :: 0 <= k < |Candidates()| && Candidates()[k] == ClientPath(files).value &&
        forall j :: 0 <= j < k ==> Candidates()[j] !in files
  {
    var c := Candidates();
    if PrimaryPath in files {
      assert c[0] == PrimaryPath;
    } else if ClientPath(files).Some? {
      var k := First(FallbackPaths, p => Exists(files, p)).value;
      assert c[k + 1] == FallbackPaths[k];
      forall j | 0 <= j < k + 1
        ensures c[j] !in files
      {
        if j > 0 {
          assert c[j] == FallbackPaths[j - 1];
          assert !Exists(files, FallbackPaths[j - 1]);
        }
      }
    }
  }

  /** `vrchatPath` after the search: the chosen path, or the primary one when none exists. */
  method SearchPath(files: set<string>) returns (path: string)
    ensures path == if ClientPath(files).Some? then ClientPath(files).value else PrimaryPath
  {
    path := PrimaryPath;
    if path !in files {
      var k := 0;
      while k < |FallbackPaths|
        invariant 0 <= k <= |FallbackPaths|
        invariant path == PrimaryPath
        invariant forall j :: 0 <= j < k ==> FallbackPaths[j] !in files
      {
        if FallbackPaths[k] in files {
          path := FallbackPaths[k];
          FirstAt(FallbackPaths, p => Exists(files, p), Some(k));
          return;
        }
        k := k + 1;
      }
      FirstAt(FallbackPaths, p => Exists(files, p), None);
    }
  }

  /**
   * The menu command: stores the path when the file exists and reports it; leaves every
   * preference alone when nothing was found.
   */
  method FixPath(prefs: EditorPrefs, files: set<string>) returns (found: Option<string>)
    modifies prefs
    ensures found == ClientPath(files)
    ensures found.Some? ==> prefs.installedClientPath == found
    ensures found.None? ==> prefs.installedClientPath == old(prefs.installedClientPath)
    ensures prefs.autoMergeDone == old(prefs.autoMergeDone)
  {
    var path := SearchPath(files);
    if path in files {
      prefs.installedClientPath := Some(path);
      found := Some(path);
    } else {
      found := None;
    }
  }
}
