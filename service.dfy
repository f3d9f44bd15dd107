/**
 * The channel image service (`GameService`): one current image per
 * (platform, workspace, channel) key, kept as `current.<ext>` in the key's directory,
 * and the change protocol that replaces it under a per-channel lock file.
 */
module Service {
  import opened Wrappers
  import opened Os
  import opened Oracle

  // ---------------------------------------------------------------------------
  // Errors and messages
  // ---------------------------------------------------------------------------

  /** Why a storage operation raised. */
  datatype StorageCause = FileNotFound(path: string) | WriteFailed(path: string)

  /**
   * The exceptions the service raises: `NoImageError`, `InvalidPromptError(reason)`,
   * `GenerationError(str(e))`, `ChangeInProgressError`, and an `OSError` from the store.
   */
  datatype Error =
    | NoImage
    | InvalidPrompt(reason: Option<string>)
    | GenerationFailure(message: string)
    | ChangeInProgress
    | StorageFailure(cause: StorageCause)

  const DefaultInvalidReason := "prompt does not match the rules"

  /** Python's truthiness of an optional reason: present and not the empty string. */
  predicate Explained(reason: Option<string>)
  {
    reason.Some? && reason.value != ""
  }

  /** The message of `InvalidPromptError(reason)`: the reason, or the default when there is none. */
  function InvalidPromptMessage(reason: Option<string>): (m: string)
    ensures Explained(reason) ==> m == reason.value
    ensures !Explained(reason) ==> m == DefaultInvalidReason
  {
    if Explained(reason) then reason.value else DefaultInvalidReason
  }

  /** `format_invalid_prompt`: the user-facing text for a refused prompt. */
  function FormatInvalidPrompt(reason: Option<string>): (m: string)
    ensures |m| >= 19 && m[..19] == "Disallowed change: "
    ensures Explained(reason) ==> m[19..] == reason.value
    ensures !Explained(reason) ==> m[19..] == DefaultInvalidReason + "."
  {
    "Disallowed change: " + (if Explained(reason) then reason.value else DefaultInvalidReason + ".")
  }

  /**
   * The user-facing text carries the exception's message; only the default message
   * gains a final full stop.
   */
  lemma FormatCarriesMessage(reason: Option<string>)
    ensures FormatInvalidPrompt(reason)
         == "Disallowed change: " + InvalidPromptMessage(reason) + (if Explained(reason) then "" else ".")
  {
  }

  // ---------------------------------------------------------------------------
  // Layout of a channel's directory
  // ---------------------------------------------------------------------------

  /** The extensions a current image may have, in the order they are probed. */
  const Extensions: seq<string> := ["png", "jpg", "jpeg"]

  const LockName := ".change.lock"

  /**
   * `channel_dir`: `uploads_dir/platform/workspace_id/channel_id`, by `os.path.join`.
   * A plain channel id ends the path; an absolute one replaces everything before it.
   */
  function ChannelDir(uploadsDir: string, platform: string, workspaceId: string, channelId: string): (r: string)
    ensures PlainName(channelId) ==> r != "" && r[|r| - 1] != '/'
    ensures channelId != "" && channelId[0] == '/' ==> r == channelId
  {
    Join(Join(Join(uploadsDir, platform), workspaceId), channelId)
  }

  /**
   * With plain-name parts, the channel directory is the uploads directory followed by
   * `platform/workspace_id/channel_id`, and it does not end in a separator.
   */
  lemma ChannelDirLayout(uploadsDir: string, platform: string, workspaceId: string, channelId: string)
    requires PlainName(platform) && PlainName(workspaceId) && PlainName(channelId)
    ensures var d := ChannelDir(uploadsDir, platform, workspaceId, channelId);
            d == DirPrefix(uploadsDir) + platform + "/" + workspaceId + "/" + channelId &&
            d != "" && d[|d| - 1] != '/'
  {
    JoinPlain(uploadsDir, platform);
    JoinPlain(Join(uploadsDir, platform), workspaceId);
    JoinPlain(Join(Join(uploadsDir, platform), workspaceId), channelId);
  }

  /** The file that holds a current image with extension `ext`. */
  function ImagePath(dir: string, ext: string): string
  {
    Join(dir, "current." + ext)
  }

  /** The lock file's name and the image files' names are plain names. */
  lemma LayoutNamesPlain()
    ensures PlainName(LockName) && PlainName("current.png")
    ensures "current." + "png" == "current.png"
  {
    assert LockName[1] != '.' && "current.png"[1] != '.';
  }

  /** `_change_lock_path`: the lock file inside the channel's directory, never one of its image files. */
  function LockPath(dir: string): (r: string)
    ensures r != ImagePath(dir, "png") && r != ImagePath(dir, "jpg") && r != ImagePath(dir, "jpeg")
  {
    LockNotAnImage(dir, "png");
    LockNotAnImage(dir, "jpg");
    LockNotAnImage(dir, "jpeg");
    Join(dir, LockName)
  }

  /** The lock file's name starts with a dot, no image file's name does. */
  lemma LockNotAnImage(dir: string, ext: string)
    ensures Join(dir, LockName) != ImagePath(dir, ext)
  {
    var p := DirPrefix(dir);
    assert ("current." + ext)[0] == 'c';
    assert Join(dir, LockName) == p + LockName;
    assert ImagePath(dir, ext) == p + ("current." + ext);
    assert (p + LockName)[|p|] != (p + ("current." + ext))[|p|];
  }

  /** The extension a save uses: a supported one is kept, anything else becomes `png`. */
  function NormalizeExt(ext: string): (e: string)
    ensures e in Extensions
    ensures ext in Extensions ==> e == ext
    ensures ext !in Extensions ==> e == "png"
  {
    if ext in Extensions then ext else "png"
  }

  /** The lock file is never one of the image files, and the image files are pairwise distinct. */
  lemma LayoutDistinct(dir: string)
    ensures forall e :: e in Extensions ==> LockPath(dir) != ImagePath(dir, e)
    ensures forall e1, e2 :: e1 in Extensions && e2 in Extensions && e1 != e2 ==>
              ImagePath(dir, e1) != ImagePath(dir, e2)
  {
    forall e | e in Extensions ensures LockPath(dir) != ImagePath(dir, e) {
      assert LockName[0] != ("current." + e)[0];
      JoinDistinctNames(dir, LockName, "current." + e);
    }
    forall e1, e2 | e1 in Extensions && e2 in Extensions && e1 != e2
      ensures ImagePath(dir, e1) != ImagePath(dir, e2)
    {
      assert ("current." + e1)[8..] == e1 && ("current." + e2)[8..] == e2;
      JoinDistinctNames(dir, "current." + e1, "current." + e2);
    }
  }

  /**
   * Key parts that contain a separator are not kept apart: ("slack", "T1/C1", "x") and
   * ("slack", "T1", "C1/x") name the same channel directory.
   */
  lemma ChannelDirSlashCollision(uploadsDir: string)
    ensures ChannelDir(uploadsDir, "slack", "T1/C1", "x") == ChannelDir(uploadsDir, "slack", "T1", "C1/x")
  {
    var p := Join(uploadsDir, "slack");
    assert p != "" && p[|p| - 1] == 'k';
    assert Join(p, "T1/C1") == p + "/T1/C1";
    assert Join(p, "T1") == p + "/T1";
    assert (p + "/T1/C1") + "/x" == (p + "/T1") + "/C1/x";
  }

  /**
   * Empty key parts are not kept apart either: ("slack", "", "C1") and ("slack", "C1", "")
   * differ only by a trailing separator, and share one lock file.
   */
  lemma ChannelDirEmptyPartCollision(uploadsDir: string)
    ensures LockPath(ChannelDir(uploadsDir, "slack", "", "C1")) == LockPath(ChannelDir(uploadsDir, "slack", "C1", ""))
  {
    var p := Join(uploadsDir, "slack");
    assert p != "" && p[|p| - 1] == 'k';
    assert Join(p, "") == p + "/";
    assert Join(p + "/", "C1") == p + "/C1";
    assert Join(p, "C1") == p + "/C1";
    assert Join(p + "/C1", "") == p + "/C1/";
    assert (p + "/C1") + "/" + LockName == (p + "/C1/") + LockName;
  }

  /**
   * Different channel keys whose parts are plain names have different directories,
   * so their image and lock files never coincide.
   */
  lemma ChannelDirInjective(uploadsDir: string, p1: string, w1: string, c1: string, p2: string, w2: string, c2: string)
    requires PlainName(p1) && PlainName(w1) && PlainName(c1)
    requires PlainName(p2) && PlainName(w2) && PlainName(c2)
    requires ChannelDir(uploadsDir, p1, w1, c1) == ChannelDir(uploadsDir, p2, w2, c2)
    ensures p1 == p2 && w1 == w2 && c1 == c2
  {
    ChannelDirLayout(uploadsDir, p1, w1, c1);
    ChannelDirLayout(uploadsDir, p2, w2, c2);
    var pre := DirPrefix(uploadsDir);
    SplitLast(pre + p1 + "/" + w1, c1, pre + p2 + "/" + w2, c2);
    SplitLast(pre + p1, w1, pre + p2, w2);
    assert p1 == (pre + p1)[|pre|..] == (pre + p2)[|pre|..] == p2;
  }

  /** Plain names inside two channel directories give the same path only for the same directory and name. */
  lemma InChannelDirDistinct(d1: string, n1: string, d2: string, n2: string)
    requires d1 != "" && d1[|d1| - 1] != '/' && d2 != "" && d2[|d2| - 1] != '/'
    requires PlainName(n1) && PlainName(n2)
    requires d1 != d2 || n1 != n2
    ensures Join(d1, n1) != Join(d2, n2)
  {
    JoinPlain(d1, n1);
    JoinPlain(d2, n2);
    if d1 + "/" + n1 == d2 + "/" + n2 {
      SplitLast(d1, n1, d2, n2);
    }
  }

  // ---------------------------------------------------------------------------
  // The current image
  // ---------------------------------------------------------------------------

  /** The first of `exts` whose image file exists in `dir`, if any. */
  function FirstExisting(files: Files, dir: string, exts: seq<string>): (r: Option<string>)
    ensures r.Some? ==>
              r.value in files &&
              exists i :: 0 <= i < |exts| && r.value == ImagePath(dir, exts[i]) &&
                forall j :: 0 <= j < i ==> ImagePath(dir, exts[j]) !in files
    ensures r.None? <==> forall i :: 0 <= i < |exts| ==> ImagePath(dir, exts[i]) !in files
    decreases |exts|
  {
    if exts == [] then None
    else if ImagePath(dir, exts[0]) in files then Some(ImagePath(dir, exts[0]))
    else
      var r := FirstExisting(files, dir, exts[1..]);
      assert forall i :: 1 <= i < |exts| ==> exts[i] == exts[1..][i - 1];
      r
  }

  /** The channel's current image: the first of `current.png`, `current.jpg`, `current.jpeg` that exists. */
  function CurrentImage(files: Files, dir: string): (r: Option<string>)
    ensures r.Some? ==> r.value in files
    ensures r.None? <==> forall e :: e in Extensions ==> ImagePath(dir, e) !in files
    ensures ImagePath(dir, "png") in files ==> r == Some(ImagePath(dir, "png"))
  {
    FirstExisting(files, dir, Extensions)
  }

  /** The probe order written out: png wins over jpg, which wins over jpeg. */
  lemma CurrentImageProbeOrder(files: Files, dir: string)
    ensures CurrentImage(files, dir) ==
      if ImagePath(dir, "png") in files then Some(ImagePath(dir, "png"))
      else if ImagePath(dir, "jpg") in files then Some(ImagePath(dir, "jpg"))
      else if ImagePath(dir, "jpeg") in files then Some(ImagePath(dir, "jpeg"))
      else None
  {
    assert Extensions[1..] == ["jpg", "jpeg"];
    assert Extensions[1..][1..] == ["jpeg"];
    assert Extensions[1..][1..][1..] == [];
  }

  /** The lookup sees only which of the probed files exist. */
  lemma {:induction false} FirstExistingOnlyProbes(f1: Files, f2: Files, dir: string, exts: seq<string>)
    requires forall i :: 0 <= i < |exts| ==> (ImagePath(dir, exts[i]) in f1 <==> ImagePath(dir, exts[i]) in f2)
    ensures FirstExisting(f1, dir, exts) == FirstExisting(f2, dir, exts)
    decreases |exts|
  {
    if exts != [] {
      assert forall i :: 1 <= i < |exts| ==> exts[i] == exts[1..][i - 1];
      FirstExistingOnlyProbes(f1, f2, dir, exts[1..]);
    }
  }

  /** Creating or removing the lock file does not change the current image. */
  lemma CurrentImageIgnoresLock(files: Files, dir: string, contents: seq<byte>)
    ensures CurrentImage(files[LockPath(dir) := contents], dir) == CurrentImage(files, dir)
    ensures CurrentImage(files - {LockPath(dir)}, dir) == CurrentImage(files, dir)
  {
    LayoutDistinct(dir);
    FirstExistingOnlyProbes(files[LockPath(dir) := contents], files, dir, Extensions);
    FirstExistingOnlyProbes(files - {LockPath(dir)}, files, dir, Extensions);
  }

  /** After `current.png` is written, it is the current image, whatever else exists. */
  lemma SavedPngIsCurrent(files: Files, dir: string, image: seq<byte>)
    ensures CurrentImage(files[ImagePath(dir, "png") := image], dir) == Some(ImagePath(dir, "png"))
  {
    CurrentImageProbeOrder(files[ImagePath(dir, "png") := image], dir);
  }

  /**
   * Saving a jpg or jpeg image while `current.png` exists stores the bytes but does not
   * change the current image: the png still wins the lookup.
   */
  lemma SaveHiddenByPng(files: Files, dir: string, ext: string, image: seq<byte>)
    requires ImagePath(dir, "png") in files
    requires NormalizeExt(ext) != "png"
    ensures var after := files[ImagePath(dir, NormalizeExt(ext)) := image];
            ImagePath(dir, NormalizeExt(ext)) in after &&
            CurrentImage(after, dir) == Some(ImagePath(dir, "png"))
  {
    LayoutDistinct(dir);
  }

  /** Writing one image file leaves every other image file of the channel as it was. */
  lemma WriteLeavesOtherImages(files: Files, dir: string, ext: string, image: seq<byte>)
    requires ext in Extensions
    ensures forall e :: e in Extensions && e != ext ==>
              (ImagePath(dir, e) in files[ImagePath(dir, ext) := image] <==> ImagePath(dir, e) in files) &&
              (ImagePath(dir, e) in files ==> files[ImagePath(dir, ext) := image][ImagePath(dir, e)] == files[ImagePath(dir, e)])
  {
    LayoutDistinct(dir);
  }

  // ---------------------------------------------------------------------------
  // The change protocol, as a reference definition
  // ---------------------------------------------------------------------------

  /** The handle `_acquire_change_lock` returns (the file descriptor is not modelled). */
  datatype LockHandle = LockHandle(path: string)

  /** What one `change_image` call returns, the store it leaves, and the model calls it makes. */
  datatype ChangeRun = ChangeRun(
    result: Result<string, Error>,
    files: Files,
    validateCalls: seq<string>,
    generateCalls: seq<(string, string)>)

  /**
   * `change_image`: take the lock or fail fast; look up the current image; ask the model
   * to validate the prompt and, only if it is valid, to generate; commit the bytes as
   * `current.png`; remove the lock on every exit after it was taken.
   */
  function ChangeSpec(
    uploadsDir: string, files: Files,
    platform: string, workspaceId: string, channelId: string, prompt: string,
    judge: string -> Verdict, painter: (string, string) -> Generation,
    pidWriteFails: bool): (r: ChangeRun)
    ensures r.result == Err(ChangeInProgress) <==>
              LockPath(ChannelDir(uploadsDir, platform, workspaceId, channelId)) in files
    ensures |r.generateCalls| <= |r.validateCalls| <= 1
    ensures r.validateCalls != [] ==> r.validateCalls == [prompt]
    ensures r.result.Ok? ==> r.result.value == ImagePath(ChannelDir(uploadsDir, platform, workspaceId, channelId), "png")
  {
    var dir := ChannelDir(uploadsDir, platform, workspaceId, channelId);
    var lock := LockPath(dir);
    if lock in files then ChangeRun(Err(ChangeInProgress), files, [], [])
    else if pidWriteFails then ChangeRun(Err(StorageFailure(WriteFailed(lock))), files, [], [])
    else
      var locked := files[lock := []];
      match CurrentImage(locked, dir)
      case None => ChangeRun(Err(NoImage), locked - {lock}, [], [])
      case Some(current) =>
        if !judge(prompt).0 then
          ChangeRun(Err(InvalidPrompt(judge(prompt).1)), locked - {lock}, [prompt], [])
        else match painter(prompt, current)
          case Failed(msg) =>
            ChangeRun(Err(GenerationFailure(msg)), locked - {lock}, [prompt], [(prompt, current)])
          case Generated(image) =>
            var png := ImagePath(dir, "png");
            ChangeRun(Ok(png), locked[png := image] - {lock}, [prompt], [(prompt, current)])
  }

  /** A change that finds the lock taken raises `ChangeInProgressError`, asks the model nothing and changes nothing. */
  lemma ChangeFailsFastWhenLocked(
    uploadsDir: string, files: Files, platform: string, workspaceId: string, channelId: string, prompt: string,
    judge: string -> Verdict, painter: (string, string) -> Generation, pidWriteFails: bool)
    requires LockPath(ChannelDir(uploadsDir, platform, workspaceId, channelId)) in files
    ensures ChangeSpec(uploadsDir, files, platform, workspaceId, channelId, prompt, judge, painter, pidWriteFails)
         == ChangeRun(Err(ChangeInProgress), files, [], [])
  {
  }

  /**
   * A change that fails for any reason leaves the store exactly as it was: the lock it
   * took is gone and no image file was touched.
   */
  lemma ChangeFailureLeavesStore(
    uploadsDir: string, files: Files, platform: string, workspaceId: string, channelId: string, prompt: string,
    judge: string -> Verdict, painter: (string, string) -> Generation, pidWriteFails: bool)
    ensures var run := ChangeSpec(uploadsDir, files, platform, workspaceId, channelId, prompt, judge, painter, pidWriteFails);
            run.result.Err? ==> run.files == files
  {
    var lock := LockPath(ChannelDir(uploadsDir, platform, workspaceId, channelId));
    if lock !in files {
      CreateThenUnlink(files, lock, []);
    }
  }

  /** Once a change has taken the lock, the lock file is absent when the change ends, however it ends. */
  lemma ChangeReleasesLock(
    uploadsDir: string, files: Files, platform: string, workspaceId: string, channelId: string, prompt: string,
    judge: string -> Verdict, painter: (string, string) -> Generation, pidWriteFails: bool)
    requires LockPath(ChannelDir(uploadsDir, platform, workspaceId, channelId)) !in files
    ensures LockPath(ChannelDir(uploadsDir, platform, workspaceId, channelId))
              !in ChangeSpec(uploadsDir, files, platform, workspaceId, channelId, prompt, judge, painter, pidWriteFails).files
  {
  }

  /**
   * A change never leaves a lock behind for the next change on the same channel:
   * whatever the first one did, the second one does not raise `ChangeInProgressError`.
   */
  lemma NextChangeNotBlocked(
    uploadsDir: string, files: Files, platform: string, workspaceId: string, channelId: string,
    prompt1: string, judge1: string -> Verdict, painter1: (string, string) -> Generation, fails1: bool,
    prompt2: string, judge2: string -> Verdict, painter2: (string, string) -> Generation, fails2: bool)
    requires LockPath(ChannelDir(uploadsDir, platform, workspaceId, channelId)) !in files
    ensures var after := ChangeSpec(uploadsDir, files, platform, workspaceId, channelId, prompt1, judge1, painter1, fails1).files;
            ChangeSpec(uploadsDir, after, platform, workspaceId, channelId, prompt2, judge2, painter2, fails2).result
              != Err(ChangeInProgress)
  {
    ChangeReleasesLock(uploadsDir, files, platform, workspaceId, channelId, prompt1, judge1, painter1, fails1);
  }

  /**
   * Validation gates generation: the model is asked to generate only after it accepted
   * the prompt, and a refused prompt raises `InvalidPromptError` with the model's reason.
   */
  lemma ValidationGatesGeneration(
    uploadsDir: string, files: Files, platform: string, workspaceId: string, channelId: string, prompt: string,
    judge: string -> Verdict, painter: (string, string) -> Generation, pidWriteFails: bool)
    ensures var run := ChangeSpec(uploadsDir, files, platform, workspaceId, channelId, prompt, judge, painter, pidWriteFails);
            (run.generateCalls != [] ==> run.validateCalls == [prompt] && judge(prompt).0) &&
            (!judge(prompt).0 ==> run.generateCalls == []) &&
            (!judge(prompt).0 && run.validateCalls != [] ==> run.result == Err(InvalidPrompt(judge(prompt).1)))
  {
  }

  /** The model is consulted only when the lock was free and a current image exists. */
  lemma ModelConsultedOnlyWithImage(
    uploadsDir: string, files: Files, platform: string, workspaceId: string, channelId: string, prompt: string,
    judge: string -> Verdict, painter: (string, string) -> Generation, pidWriteFails: bool)
    ensures var dir := ChannelDir(uploadsDir, platform, workspaceId, channelId);
            var run := ChangeSpec(uploadsDir, files, platform, workspaceId, channelId, prompt, judge, painter, pidWriteFails);
            run.validateCalls != [] <==>
              LockPath(dir) !in files && !pidWriteFails && CurrentImage(files, dir).Some?
  {
    var dir := ChannelDir(uploadsDir, platform, workspaceId, channelId);
    CurrentImageIgnoresLock(files, dir, []);
  }

  /** With the lock free and no current image, the change raises `NoImageError` without asking the model. */
  lemma ChangeWithoutImage(
    uploadsDir: string, files: Files, platform: string, workspaceId: string, channelId: string, prompt: string,
    judge: string -> Verdict, painter: (string, string) -> Generation)
    requires LockPath(ChannelDir(uploadsDir, platform, workspaceId, channelId)) !in files
    requires CurrentImage(files, ChannelDir(uploadsDir, platform, workspaceId, channelId)).None?
    ensures ChangeSpec(uploadsDir, files, platform, workspaceId, channelId, prompt, judge, painter, false)
         == ChangeRun(Err(NoImage), files, [], [])
  {
    var dir := ChannelDir(uploadsDir, platform, workspaceId, channelId);
    CurrentImageIgnoresLock(files, dir, []);
    CreateThenUnlink(files, LockPath(dir), []);
  }

  /** With the lock free and a current image, a refused prompt raises `InvalidPromptError` and leaves the store unchanged. */
  lemma ChangeRejectsInvalidPrompt(
    uploadsDir: string, files: Files, platform: string, workspaceId: string, channelId: string, prompt: string,
    judge: string -> Verdict, painter: (string, string) -> Generation)
    requires LockPath(ChannelDir(uploadsDir, platform, workspaceId, channelId)) !in files
    requires CurrentImage(files, ChannelDir(uploadsDir, platform, workspaceId, channelId)).Some?
    requires !judge(prompt).0
    ensures ChangeSpec(uploadsDir, files, platform, workspaceId, channelId, prompt, judge, painter, false)
         == ChangeRun(Err(InvalidPrompt(judge(prompt).1)), files, [prompt], [])
  {
    var dir := ChannelDir(uploadsDir, platform, workspaceId, channelId);
    CurrentImageIgnoresLock(files, dir, []);
    CreateThenUnlink(files, LockPath(dir), []);
  }

  /**
   * With the lock free, a current image and an accepted prompt, a failed generation raises
   * `GenerationError` with the model's message, after one call of each kind, and leaves the store unchanged.
   */
  lemma ChangeGenerationFails(
    uploadsDir: string, files: Files, platform: string, workspaceId: string, channelId: string, prompt: string,
    judge: string -> Verdict, painter: (string, string) -> Generation)
    requires LockPath(ChannelDir(uploadsDir, platform, workspaceId, channelId)) !in files
    requires CurrentImage(files, ChannelDir(uploadsDir, platform, workspaceId, channelId)).Some?
    requires judge(prompt).0
    requires painter(prompt, CurrentImage(files, ChannelDir(uploadsDir, platform, workspaceId, channelId)).value).Failed?
    ensures var current := CurrentImage(files, ChannelDir(uploadsDir, platform, workspaceId, channelId)).value;
            ChangeSpec(uploadsDir, files, platform, workspaceId, channelId, prompt, judge, painter, false)
              == ChangeRun(Err(GenerationFailure(painter(prompt, current).message)), files, [prompt], [(prompt, current)])
  {
    var dir := ChannelDir(uploadsDir, platform, workspaceId, channelId);
    CurrentImageIgnoresLock(files, dir, []);
    CreateThenUnlink(files, LockPath(dir), []);
  }

  /**
   * A successful change was validated and generated from the current image; it wrote the
   * generated bytes to `current.png`, changed nothing else, returned that path, and a later
   * lookup finds that file.
   */
  lemma ChangeSuccessCommitsPng(
    uploadsDir: string, files: Files, platform: string, workspaceId: string, channelId: string, prompt: string,
    judge: string -> Verdict, painter: (string, string) -> Generation, pidWriteFails: bool)
    ensures var dir := ChannelDir(uploadsDir, platform, workspaceId, channelId);
            var png := ImagePath(dir, "png");
            var run := ChangeSpec(uploadsDir, files, platform, workspaceId, channelId, prompt, judge, painter, pidWriteFails);
            run.result.Ok? ==>
              run.result.value == png &&
              judge(prompt).0 &&
              CurrentImage(files, dir).Some? &&
              run.generateCalls == [(prompt, CurrentImage(files, dir).value)] &&
              painter(prompt, CurrentImage(files, dir).value).Generated? &&
              run.files == files[png := painter(prompt, CurrentImage(files, dir).value).image] &&
              CurrentImage(run.files, dir) == Some(png)
  {
    var dir := ChannelDir(uploadsDir, platform, workspaceId, channelId);
    var png := ImagePath(dir, "png");
    var lock := LockPath(dir);
    var run := ChangeSpec(uploadsDir, files, platform, workspaceId, channelId, prompt, judge, painter, pidWriteFails);
    if run.result.Ok? {
      CurrentImageIgnoresLock(files, dir, []);
      LayoutDistinct(dir);
      var image := painter(prompt, CurrentImage(files, dir).value).image;
      CreateWriteUnlink(files, lock, [], png, image);
      SavedPngIsCurrent(files, dir, image);
    }
  }

  /** A change touches at most two files: its channel's lock file and its `current.png`. */
  lemma ChangeTouchesOnlyLockAndPng(
    uploadsDir: string, files: Files, platform: string, workspaceId: string, channelId: string, prompt: string,
    judge: string -> Verdict, painter: (string, string) -> Generation, pidWriteFails: bool, q: string)
    requires q != LockPath(ChannelDir(uploadsDir, platform, workspaceId, channelId))
    requires q != ImagePath(ChannelDir(uploadsDir, platform, workspaceId, channelId), "png")
    ensures var after := ChangeSpec(uploadsDir, files, platform, workspaceId, channelId, prompt, judge, painter, pidWriteFails).files;
            (q in after <==> q in files) && (q in files ==> after[q] == files[q])
  {
  }

  /** Different plain-name keys have different directories, neither ending in a separator. */
  lemma ChannelDirsDistinct(
    uploadsDir: string, platform: string, workspaceId: string, channelId: string,
    otherPlatform: string, otherWorkspace: string, otherChannel: string)
    requires PlainName(platform) && PlainName(workspaceId) && PlainName(channelId)
    requires PlainName(otherPlatform) && PlainName(otherWorkspace) && PlainName(otherChannel)
    requires (platform, workspaceId, channelId) != (otherPlatform, otherWorkspace, otherChannel)
    ensures var dir := ChannelDir(uploadsDir, platform, workspaceId, channelId);
            var other := ChannelDir(uploadsDir, otherPlatform, otherWorkspace, otherChannel);
            other != dir && dir != "" && dir[|dir| - 1] != '/' && other != "" && other[|other| - 1] != '/'
  {
    if ChannelDir(uploadsDir, otherPlatform, otherWorkspace, otherChannel) == ChannelDir(uploadsDir, platform, workspaceId, channelId) {
      ChannelDirInjective(uploadsDir, platform, workspaceId, channelId, otherPlatform, otherWorkspace, otherChannel);
    }
  }

  /** A plain name inside another channel's directory is neither this channel's lock file nor its `current.png`. */
  lemma OtherChannelFilesDistinct(
    uploadsDir: string, platform: string, workspaceId: string, channelId: string,
    otherPlatform: string, otherWorkspace: string, otherChannel: string, name: string)
    requires PlainName(platform) && PlainName(workspaceId) && PlainName(channelId)
    requires PlainName(otherPlatform) && PlainName(otherWorkspace) && PlainName(otherChannel)
    requires (platform, workspaceId, channelId) != (otherPlatform, otherWorkspace, otherChannel)
    requires PlainName(name)
    ensures var dir := ChannelDir(uploadsDir, platform, workspaceId, channelId);
            var q := Join(ChannelDir(uploadsDir, otherPlatform, otherWorkspace, otherChannel), name);
            q != LockPath(dir) && q != ImagePath(dir, "png")
  {
    var dir := ChannelDir(uploadsDir, platform, workspaceId, channelId);
    var other := ChannelDir(uploadsDir, otherPlatform, otherWorkspace, otherChannel);
    ChannelDirsDistinct(uploadsDir, platform, workspaceId, channelId, otherPlatform, otherWorkspace, otherChannel);
    LayoutNamesPlain();
    InChannelDirDistinct(other, name, dir, LockName);
    InChannelDirDistinct(other, name, dir, "current.png");
  }

  /**
   * Changes on different channels never interfere: a change on one key leaves every file
   * directly inside another key's directory, its lock and its images included, as it was.
   */
  lemma ChangeLeavesOtherChannels(
    uploadsDir: string, files: Files, platform: string, workspaceId: string, channelId: string, prompt: string,
    judge: string -> Verdict, painter: (string, string) -> Generation, pidWriteFails: bool,
    otherPlatform: string, otherWorkspace: string, otherChannel: string, name: string)
    requires PlainName(platform) && PlainName(workspaceId) && PlainName(channelId)
    requires PlainName(otherPlatform) && PlainName(otherWorkspace) && PlainName(otherChannel)
    requires (platform, workspaceId, channelId) != (otherPlatform, otherWorkspace, otherChannel)
    requires PlainName(name)
    ensures var q := Join(ChannelDir(uploadsDir, otherPlatform, otherWorkspace, otherChannel), name);
            var after := ChangeSpec(uploadsDir, files, platform, workspaceId, channelId, prompt, judge, painter, pidWriteFails).files;
            (q in after <==> q in files) && (q in files ==> after[q] == files[q])
  {
    OtherChannelFilesDistinct(uploadsDir, platform, workspaceId, channelId, otherPlatform, otherWorkspace, otherChannel, name);
    var q := Join(ChannelDir(uploadsDir, otherPlatform, otherWorkspace, otherChannel), name);
    ChangeTouchesOnlyLockAndPng(uploadsDir, files, platform, workspaceId, channelId, prompt, judge, painter, pidWriteFails, q);
  }

  // ---------------------------------------------------------------------------
  // The service
  // ---------------------------------------------------------------------------

  class GameService {
    const model: AIModel
    const fs: FileSystem
    const uploadsDir: string

    /** `uploads_dir or os.environ.get("UPLOADS_DIR", "/tmp")`; `env` is the variable's value, if set. */
    constructor (model: AIModel, fs: FileSystem, uploadsDir: Option<string>, env: Option<string>)
      ensures this.model == model && this.fs == fs
      ensures uploadsDir.Some? && uploadsDir.value != "" ==> this.uploadsDir == uploadsDir.value
      ensures (uploadsDir.None? || uploadsDir.value == "") && env.Some? ==> this.uploadsDir == env.value
      ensures (uploadsDir.None? || uploadsDir.value == "") && env.None? ==> this.uploadsDir == "/tmp"
    {
      this.model := model;
      this.fs := fs;
      this.uploadsDir :=
        if uploadsDir.Some? && uploadsDir.value != "" then uploadsDir.value
        else if env.Some? then env.value
        else "/tmp";
    }

    /** `get_current_image_path`: probes png, jpg, jpeg in turn and returns the first that exists. */
    method GetCurrentImagePath(platform: string, workspaceId: string, channelId: string) returns (r: Option<string>)
      ensures r == CurrentImage(fs.files, ChannelDir(uploadsDir, platform, workspaceId, channelId))
      ensures r.Some? ==> r.value in fs.files
    {
      var dir := ChannelDir(uploadsDir, platform, workspaceId, channelId);
      var i := 0;
      while i < |Extensions|
        invariant 0 <= i <= |Extensions|
        invariant FirstExisting(fs.files, dir, Extensions[i..]) == CurrentImage(fs.files, dir)
      {
        var path := ImagePath(dir, Extensions[i]);
        if path in fs.files {
          return Some(path);
        }
        assert Extensions[i..][1..] == Extensions[i + 1..];
        i := i + 1;
      }
      return None;
    }

    /** `save_image_bytes`: writes the bytes as `current.<ext>`, with `ext` normalised. */
    method SaveImageBytes(platform: string, workspaceId: string, channelId: string, imageBytes: seq<byte>, ext: string)
      returns (path: string)
      modifies fs
      ensures path == ImagePath(ChannelDir(uploadsDir, platform, workspaceId, channelId), NormalizeExt(ext))
      ensures fs.files == old(fs.files)[path := imageBytes]
    {
      var e := if ext in Extensions then ext else "png";
      var dir := ChannelDir(uploadsDir, platform, workspaceId, channelId);
      path := ImagePath(dir, e);
      fs.files := fs.files[path := imageBytes];
    }

    /** `save_image_file`: moves `srcPath` onto `current.<ext>`, with `ext` normalised. */
    method SaveImageFile(platform: string, workspaceId: string, channelId: string, srcPath: string, ext: string)
      returns (r: Result<string, Error>)
      modifies fs
      ensures var dest := ImagePath(ChannelDir(uploadsDir, platform, workspaceId, channelId), NormalizeExt(ext));
              if srcPath in old(fs.files) then r == Ok(dest) && fs.files == Replace(old(fs.files), srcPath, dest)
              else r == Err(StorageFailure(FileNotFound(srcPath))) && fs.files == old(fs.files)
    {
      var e := if ext in Extensions then ext else "png";
      var dir := ChannelDir(uploadsDir, platform, workspaceId, channelId);
      var dest := ImagePath(dir, e);
      if srcPath !in fs.files {
        return Err(StorageFailure(FileNotFound(srcPath)));
      }
      if srcPath != dest {
        fs.files := (fs.files - {srcPath})[dest := fs.files[srcPath]];
      }
      return Ok(dest);
    }

    /**
     * `_acquire_change_lock`: exclusive creation of the lock file. An existing lock file gives
     * `None` and is left alone; a failed pid write removes the new lock file and raises.
     */
    method AcquireChangeLock(platform: string, workspaceId: string, channelId: string, pidWriteFails: bool)
      returns (r: Result<Option<LockHandle>, Error>)
      modifies fs
      ensures var lock := LockPath(ChannelDir(uploadsDir, platform, workspaceId, channelId));
              if lock in old(fs.files) then r == Ok(None) && fs.files == old(fs.files)
              else if pidWriteFails then r == Err(StorageFailure(WriteFailed(lock))) && fs.files == old(fs.files)
              else r == Ok(Some(LockHandle(lock))) && fs.files == old(fs.files)[lock := []]
    {
      var lock := LockPath(ChannelDir(uploadsDir, platform, workspaceId, channelId));
      if lock in fs.files {
        return Ok(None);
      }
      fs.files := fs.files[lock := []];
      if pidWriteFails {
        CreateThenUnlink(old(fs.files), lock, []);
        fs.files := fs.files - {lock};
        return Err(StorageFailure(WriteFailed(lock)));
      }
      return Ok(Some(LockHandle(lock)));
    }

    /** `_release_change_lock`: `None` is a no-op; a handle's lock file is removed if it is still there. */
    method ReleaseChangeLock(lock: Option<LockHandle>)
      modifies fs
      ensures lock.None? ==> fs.files == old(fs.files)
      ensures lock.Some? ==> fs.files == old(fs.files) - {lock.value.path}
    {
      if lock.Some? {
        fs.files := fs.files - {lock.value.path};
      }
    }

    /** `show_image`: the current image's path, or `NoImageError`. */
    method ShowImage(platform: string, workspaceId: string, channelId: string) returns (r: Result<string, Error>)
      ensures var current := CurrentImage(fs.files, ChannelDir(uploadsDir, platform, workspaceId, channelId));
              (current.Some? ==> r == Ok(current.value)) && (current.None? ==> r == Err(NoImage))
    {
      var path := GetCurrentImagePath(platform, workspaceId, channelId);
      if path.None? {
        return Err(NoImage);
      }
      return Ok(path.value);
    }

    /** `change_image`: the change protocol, with the lock released in the final step of every path that took it. */
    method ChangeImage(platform: string, workspaceId: string, channelId: string, prompt: string, pidWriteFails: bool)
      returns (r: Result<string, Error>)
      modifies fs, model
      ensures var run := ChangeSpec(uploadsDir, old(fs.files), platform, workspaceId, channelId, prompt,
                                    model.judge, model.painter, pidWriteFails);
              r == run.result && fs.files == run.files &&
              model.validateCalls == old(model.validateCalls) + run.validateCalls &&
              model.generateCalls == old(model.generateCalls) + run.generateCalls
    {
      var acquired := AcquireChangeLock(platform, workspaceId, channelId, pidWriteFails);
      if acquired.Err? {
        return Err(acquired.error);
      }
      var lock := acquired.value;
      if lock.None? {
        return Err(ChangeInProgress);
      }
      var current := GetCurrentImagePath(platform, workspaceId, channelId);
      if current.None? {
        r := Err(NoImage);
      } else {
        var valid, reason := model.ValidatePrompt(prompt);
        if !valid {
          r := Err(InvalidPrompt(reason));
        } else {
          var generation := model.GenerateImage(prompt, current.value);
          if generation.Failed? {
            r := Err(GenerationFailure(generation.message));
          } else {
            var path := SaveImageBytes(platform, workspaceId, channelId, generation.image, "png");
            r := Ok(path);
          }
        }
      }
      ReleaseChangeLock(lock);
    }
  }
}
