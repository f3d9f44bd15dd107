# Rengabot channel image service and messenger registry, in Dafny

Rengabot lets a chat channel evolve one shared image: an admin sets a starting
image, and members then ask for one change at a time. An AI model first checks
that the prompt is allowed, then edits the image, and the result becomes the
channel's new current image. This project models the two parts of the
repository that hold real logic, and proves properties about them.

**The channel image service** (`game/service.py`, module `Service`).

- A channel key (platform, workspace id, channel id) maps to the directory
  `uploads_dir/platform/workspace_id/channel_id`. This is built by POSIX
  `os.path.join`, modelled exactly in `Os.Join`.
- The channel's current image is the first of `current.png`, `current.jpg` and
  `current.jpeg` that exists.
- `save_image_bytes` writes a new current image. `save_image_file` moves an
  existing file into place.
- `change_image` runs the change protocol:
  1. Create `.change.lock` exclusively, and fail fast if it already exists.
  2. Look up the current image.
  3. Ask the model to validate the prompt.
  4. Only for a valid prompt, ask the model to generate new bytes.
  5. Commit the bytes as `current.png`.
  6. Remove the lock on every exit.

How it is modelled:

- The file store is a `FileSystem` object holding a map from path to bytes.
  The service changes it in place.
- The AI model is an `AIModel` object. Its answers are fixed functions of the
  arguments (`judge` for `validate_prompt`, `painter` for `generate_image`).
  It logs every call, so contracts can say which operations a run asked for.
- The exceptions form the `Error` datatype. An operation that can raise
  returns a `Result`.
- `ChangeSpec` is the reference definition of one `change_image` run. It gives
  the result, the store afterwards and the model calls made. The method
  `GameService.ChangeImage` is proved equal to it. The protocol's properties
  are lemmas about `ChangeSpec`.
- Mutual exclusion between processes is modelled sequentially: exclusive
  creation of the lock file is one atomic step, and acquiring while the lock
  file exists returns `None`.

**The messenger registry** (`messengers/base.py`, module `Messengers`).

- A `Registry` object holds the module-level `_REGISTRY` table.
- `register(name)(cls)` stores a `ChatMessenger` subclass under a free name.
  It raises `ValueError` for a taken name and `TypeError` for a class that is
  not a messenger. The type check comes first.
- Entries are only ever inserted. `initialize_messenger` constructs the class
  registered under a name, or returns `None` when the name is not registered.

Environment inputs appear as parameters:

- the `UPLOADS_DIR` environment variable (`env` of the `GameService` constructor);
- whether writing the pid into a new lock file fails (`pidWriteFails`);
- the model's answers (`judge` and `painter`).

Where the documented design and the code differ, the model follows the code:

- The design asks for atomic replace-on-write of the image. `save_image_bytes`
  truncates and rewrites the file in place (game/service.py:58-59), so no
  reader-atomicity is claimed.
- The design says requests with different keys never contend. The code makes
  the directory with `os.path.join`, so different keys can share a directory:
  - a part that contains `/`: ("slack", "T1/C1", "x") and ("slack", "T1", "C1/x")
    give the same path (`ChannelDirSlashCollision`);
  - a part that starts with `/` replaces everything before it (`ChannelDir`);
  - an empty part: ("slack", "", "C1") gives `uploads/slack/C1` and
    ("slack", "C1", "") gives `uploads/slack/C1/`, and both have the same lock
    file (`ChannelDirEmptyPartCollision`);
  - a part that is `.` or `..`: (".", "T1", "C1") and ("T1", "C1", ".") give
    different strings that the operating system resolves to one directory.
  Independence is proved only for key parts that are plain names: non-empty,
  without `/`, and neither `.` nor `..` (`ChannelDirInjective`,
  `ChangeLeavesOtherChannels`).
- Python's truthiness is kept. An empty reason counts as no reason, and an
  empty `uploads_dir` argument falls back to the environment.
  `format_invalid_prompt`'s default text ends in a full stop, but
  `InvalidPromptError`'s default message does not (`FormatCarriesMessage`).
- The tests call `save_image_bytes` and `change_image` with an extra user-id
  argument (tests/test_game_service.py:36-46). The model uses the signatures
  in game/service.py.

## Model

| member | source | states |
|---|---|---|
| `Os.Join` | game/service.py:33 | `os.path.join` of two parts: an absolute second part replaces the first; a plain-name second part gives a non-empty path that does not end in a separator |
| `Os.JoinPlain` | game/service.py:33 | a plain name is appended after the directory and one separator, none being added after an empty directory or one already ending in `/` |
| `Os.JoinDistinctNames` | game/service.py:40 | two different plain file names in the same directory give different paths |
| `Os.Replace` | game/service.py:75 | `os.replace(src, dst)`: `dst` holds the former contents of `src`, `src` no longer exists unless it is `dst`, and no other file changes |
| `Os.CreateThenUnlink` | game/service.py:89-99 | creating an absent lock file and unlinking it again leaves the store exactly as it was |
| `Oracle.AIModel.constructor` | model/base.py:5-12 | a model answers `validate_prompt` and `generate_image` by its two functions and starts with empty call logs |
| `Oracle.AIModel.ValidatePrompt` | model/base.py:6-8 | returns the model's verdict (valid, optional reason) for the prompt and logs the call |
| `Oracle.AIModel.GenerateImage` | model/base.py:10-12 | returns the generated bytes or the failure for (prompt, image path) and logs the call |
| `Service.InvalidPromptMessage` | game/service.py:9-12 | the message of `InvalidPromptError` is the reason when one is given (non-empty), else "prompt does not match the rules" |
| `Service.FormatInvalidPrompt` | game/service.py:144-146 | the text starts with "Disallowed change: " and continues with the given reason, or with the default rule text and a full stop |
| `Service.FormatCarriesMessage` | game/service.py:145-146 | the user-facing text is "Disallowed change: " plus the exception's own message; only the default gains a final full stop |
| `Service.ChannelDir` | game/service.py:32-33 | with a plain-name channel id the directory is non-empty and does not end in a separator; an absolute channel id replaces the whole path |
| `Service.ChannelDirSlashCollision` | game/service.py:32-33 | the keys ("slack", "T1/C1", "x") and ("slack", "T1", "C1/x") have the same channel directory |
| `Service.ChannelDirEmptyPartCollision` | game/service.py:32-33 | the keys ("slack", "", "C1") and ("slack", "C1", "") have the same lock file |
| `Service.ChannelDirLayout` | game/service.py:32-33 | with plain-name key parts the channel directory is the uploads directory followed by `platform/workspace_id/channel_id`, not ending in a separator |
| `Service.ChannelDirInjective` | game/service.py:32-33 | distinct keys with plain-name parts have distinct channel directories |
| `Service.NormalizeExt` | game/service.py:53-54 | the extension used is always png, jpg or jpeg; a supported one is kept and anything else becomes png |
| `Service.LockPath` | game/service.py:78-80 | the lock file is none of `current.png`, `current.jpg` and `current.jpeg` in the same directory |
| `Service.LayoutDistinct` | game/service.py:78-80 | the lock file `.change.lock` is none of the three image files, and the three image files are pairwise distinct |
| `Service.FirstExisting` | game/service.py:39-43 | the result is an existing probed file with no earlier probe existing, and it is None exactly when no probed file exists |
| `Service.CurrentImage` | game/service.py:35-43 | the current image is an existing file; there is none exactly when no `current.<ext>` exists; an existing `current.png` is always the current image |
| `Service.CurrentImageProbeOrder` | game/service.py:39-43 | the current image is `current.png` if it exists, else `current.jpg`, else `current.jpeg`, else none |
| `Service.CurrentImageIgnoresLock` | game/service.py:124-127 | creating or removing the lock file does not change which image is current |
| `Service.SavedPngIsCurrent` | game/service.py:138-140 | once `current.png` is written it is the current image, whatever jpg or jpeg files also exist |
| `Service.SaveHiddenByPng` | game/service.py:39-59 | saving a jpg or jpeg image while `current.png` exists stores the file, but `current.png` stays the current image |
| `Service.WriteLeavesOtherImages` | game/service.py:57-59 | writing `current.<ext>` leaves every other current-image file's presence and contents unchanged |
| `Service.ChangeSpec` | game/service.py:121-142 | a change raises `ChangeInProgressError` exactly when the lock file exists; it validates at most once, only the given prompt, and generates at most as often as it validated; a success returns the channel's `current.png` path |
| `Service.ChangeFailsFastWhenLocked` | game/service.py:124-126 | with the lock file present a change raises `ChangeInProgressError`, calls neither model operation and leaves the store, the holder's lock included, unchanged |
| `Service.ChangeFailureLeavesStore` | game/service.py:124-142 | a change that raises on any modelled exit (lock taken, pid write, no image, refused prompt, failed generation) leaves the store exactly as it was: no image is altered and no lock is left behind |
| `Service.ChangeReleasesLock` | game/service.py:141-142 | once a change has taken the lock, the lock file is absent when it ends, on every exit |
| `Service.NextChangeNotBlocked` | game/service.py:103-113 | after any change on a channel whose lock was free, the next change on it does not raise `ChangeInProgressError` |
| `Service.ValidationGatesGeneration` | game/service.py:131-137 | generation is requested only after validation accepted the prompt; a refused prompt is never sent to generation and raises `InvalidPromptError` with the model's reason |
| `Service.ModelConsultedOnlyWithImage` | game/service.py:127-131 | the model is asked to validate exactly when the lock was free, the pid write succeeded and a current image exists |
| `Service.ChangeWithoutImage` | game/service.py:127-130 | with the lock free and no current image, a change raises `NoImageError`, asks the model nothing and leaves the store unchanged |
| `Service.ChangeRejectsInvalidPrompt` | game/service.py:131-133 | with the lock free and a current image, a refused prompt raises `InvalidPromptError` with the model's reason, after one validation and no generation, and leaves the store unchanged |
| `Service.ChangeGenerationFails` | game/service.py:134-137 | with the lock free, a current image and an accepted prompt, a failed generation raises `GenerationError` with the model's message, after one call of each kind, and leaves the store unchanged |
| `Service.ChangeSuccessCommitsPng` | game/service.py:131-140 | a successful change was validated, generated once from the current image, wrote exactly the generated bytes to `current.png` and nothing else, returned that path, and a later lookup finds it |
| `Service.ChangeTouchesOnlyLockAndPng` | game/service.py:121-142 | a change alters at most its channel's lock file and its `current.png` |
| `Service.OtherChannelFilesDistinct` | game/service.py:78-80 | a plain-named file in another channel's directory is neither this channel's lock file nor its `current.png`, when all key parts are plain names (not empty, `.` or `..`, and without `/`) |
| `Service.ChangeLeavesOtherChannels` | game/service.py:32-33 | a change on one key leaves every plain-named file directly inside a different key's directory unchanged, when all key parts are plain names (not empty, `.` or `..`, and without `/`) |
| `Service.GameService.constructor` | game/service.py:28-30 | the uploads directory is the argument when it is non-empty, else the `UPLOADS_DIR` variable when set, else `/tmp` |
| `Service.GameService.GetCurrentImagePath` | game/service.py:35-43 | the probing loop returns the current image of the channel directory, an existing file, and changes nothing |
| `Service.GameService.SaveImageBytes` | game/service.py:45-60 | `current.<normalised ext>` in the channel directory holds exactly the given bytes, that path is returned, and no other file changes |
| `Service.GameService.SaveImageFile` | game/service.py:62-76 | a missing source raises and changes nothing; otherwise the source is moved onto `current.<normalised ext>` and that path is returned |
| `Service.GameService.AcquireChangeLock` | game/service.py:82-101 | an existing lock file gives None and is left as is; otherwise the lock file is created and a handle returned; if the pid write fails the new lock file is removed again and the error raised |
| `Service.GameService.ReleaseChangeLock` | game/service.py:103-113 | releasing None changes nothing; releasing a handle removes its lock file, and an already-absent file is tolerated |
| `Service.GameService.ShowImage` | game/service.py:115-119 | returns the current image's path, or raises `NoImageError` when there is none |
| `Service.GameService.ChangeImage` | game/service.py:121-142 | result, store afterwards and model calls made are those of the reference run `ChangeSpec` |
| `Messengers.Registration` | messengers/base.py:15-23 | a non-messenger class raises `TypeError`, checked first; a taken name raises `ValueError`; both leave the table as is; otherwise the class is stored under the name and returned unchanged |
| `Messengers.RegistrationIsInsertOnly` | messengers/base.py:19-21 | a registration keeps every existing entry, adds at most its own name, and keeps the table free of non-messengers |
| `Messengers.RegisterAllExtends` | messengers/base.py:13-23 | over any series of registrations no entry is ever removed or overwritten, and only messenger classes enter the table |
| `Messengers.FirstRegistrationWins` | messengers/base.py:19-21 | after a successful registration the name maps to that class whatever is registered later |
| `Messengers.Registry.constructor` | messengers/base.py:13 | the registry starts empty |
| `Messengers.Registry.Register` | messengers/base.py:15-23 | the decorator's result and the table afterwards are those of `Registration`; the table only grows |
| `Messengers.Registry.InitializeMessenger` | messengers/base.py:25-30 | a registered name yields an instance of its class built from (config, rengabot); an unregistered name yields None and constructs nothing |

## Left out

- Directories are implicit: `os.makedirs` (game/service.py:56, 73, 86) and its failures are not modelled. The store holds only regular files, so a directory named `current.png` (which `os.path.exists` at game/service.py:41 would accept) is never the current image in the model.
- The lock file's contents (the pid) and the file descriptor are not modelled: a new lock file is empty and the handle is only its path. A failing `os.close` in release is not modelled.
- Service.GameService.SaveImageBytes: write failures (disk full, permissions) are not modelled. Like `pidWriteFails` they could be one more input, and their effect is described under `Service.ChangeFailureLeavesStore`. The in-place rewrite gives no reader-atomicity, which a sequential model cannot show.
- Service.GameService.SaveImageBytes, Service.GameService.SaveImageFile: the default `ext="png"` (game/service.py:51, 68) is not modelled; callers always pass an extension, which `change_image` sets to `"png"`.
- Service.GameService.SaveImageFile: the only failure of `os.replace` modelled is a missing source. A destination that is a directory, or a move across devices, is not modelled.
- An exception raised by `validate_prompt` itself propagates unchanged in the source (game/service.py:131). It is not modelled: the verdict is a total function.
- The AI model's answers are functions of the arguments, so a model that answers the same call differently each time is not captured. Each change makes each call at most once.
- Real concurrency and atomicity at the OS level: `O_CREAT|O_EXCL` and `os.replace` are single atomic steps in a sequential model. There is no recovery of a lock left by a crashed process, and the source has none either.
- Service.ChangeLeavesOtherChannels: independence of different keys is proved only for key parts that are plain names (non-empty, without `/`, neither `.` nor `..`). For other parts `os.path.join` can map two keys to one directory.
- The store identifies a file by the spelling of its path. `.` and `..` components, repeated separators and symbolic links are not resolved, so two spellings of one file on disk are two paths in the model. This is why the independence lemmas exclude `.` and `..` as key parts.
- Service.ChangeFailureLeavesStore: two exits that change the store and still raise are not modelled. A failing write of `current.png` (game/service.py:58-59) can leave it truncated or partly written. A failing `os.close` of the lock in release (game/service.py:108) raises after the image was already committed.
- The class constants `NO_IMAGE_MESSAGE`, `GENERATION_ERROR_MESSAGE` and `CHANGE_IN_PROGRESS_MESSAGE` (game/service.py:24-26) are texts for the chat front ends. The service never uses them, so they are not modelled.
- The `run()` call in `initialize_messenger` (messengers/base.py:29) is blocking I/O and is left out. So are exceptions raised by a messenger class's own constructor, including instantiating the abstract `ChatMessenger` itself.
- `register(name)` returns a decorator. The model applies it at once: `Registry.Register(name, cls)` is `register(name)(cls)`. Calling `register(name)` without applying it has no effect in the source.
- The chat-platform glue (messengers/slack.py, messengers/discord.py), the Gemini client (model/gemini.py), dynamic model loading (`load_model` in model/base.py) and process start-up (main.py) are not part of this model.
- Extension matching is case-sensitive, as in the source: "PNG" is not supported and becomes png.
