/** The "add game" page of src/pages/AddGame.tsx: the list of build uploads with its
    validation, progress ticks, completion and failure; the tag and platform editing of
    the form; and the ordered checks of the submit handler with the game record it stores.

    The asynchronous upload is split into the operations a user or the runtime triggers
    one at a time: the file is chosen (`HandleFileUpload`), the ticker fires
    (`ProgressTick`), the upload call returns (`FinishUpload`) or throws (`FailUpload`). */
module AddGame {
  import opened Common
  import opened GoogleDrive

  datatype UploadStatus = Uploading | Completed | Failed

  /** One entry of the upload list (`UploadedFile`). */
  datatype UploadedFile = UploadedFile(
    id: string,
    file: FileInfo,
    platform: string,
    uploadProgress: int,
    status: UploadStatus,
    driveFileId: Option<string>,
    downloadUrl: Option<string>)

  datatype PriceType = Paid | Free | PayWhatYouWant | Demo

  datatype Visibility = Public | Private | CompaniesOnly

  /** The form state (`FormData`). */
  datatype GameForm = GameForm(
    title: string,
    shortDescription: string,
    fullDescription: string,
    genre: string,
    platforms: seq<string>,
    stage: string,
    releaseDate: string,
    price: string,
    priceType: PriceType,
    tags: seq<string>,
    lookingForPublisher: bool,
    visibility: Visibility)

  const InitialForm := GameForm("", "", "", "", [], "", "", "", Paid, [], false, Public)

  // ---------------------------------------------------------------------------
  // File validation

  const MaxFileSize := 500 * 1024 * 1024
  const AllowedTypes := ["application/zip", "application/x-zip-compressed",
                         "application/octet-stream", "application/x-msdownload"]
  const FileTooLarge := "Размер файла не должен превышать 500MB"
  const UnsupportedFile := "Поддерживаются только файлы: ZIP, EXE, APK"
  const UploadFailed := "Ошибка загрузки файла"

  /** Every upload from this page is stored under this placeholder game id. */
  const TempGameId := "temp-game-id"

  /** One of the four archive/binary MIME types, or a name ending in ".exe" or ".apk". */
  predicate AcceptedType(file: FileInfo)
  {
    file.mimeType in AllowedTypes || EndsWith(file.name, ".exe") || EndsWith(file.name, ".apk")
  }

  /** The checks made before an upload starts: the size limit first, then the type. */
  function FileError(file: FileInfo): (r: Option<string>)
    ensures r.None? <==> file.size <= MaxFileSize && AcceptedType(file)
    ensures r == Some(FileTooLarge) <==> file.size > MaxFileSize
    ensures r == Some(UnsupportedFile) <==> file.size <= MaxFileSize && !AcceptedType(file)
  {
    if file.size > MaxFileSize then Some(FileTooLarge)
    else if !AcceptedType(file) then Some(UnsupportedFile)
    else None
  }

  // ---------------------------------------------------------------------------
  // Per-unit transitions

  /** The three updates applied to the unit with a given id: a tick of the progress
      ticker, completion with the stored build's id, and failure. */
  datatype Step = Tick | Complete(fileId: string) | Fail

  function Min(a: int, b: int): int
  {
    if a <= b then a else b
  }

  function Apply(u: UploadedFile, step: Step): (r: UploadedFile)
    ensures r.id == u.id && r.file == u.file && r.platform == u.platform
    ensures step == Tick ==> r.status == u.status && r.uploadProgress <= 90
    ensures step == Tick && u.uploadProgress <= 90 ==> u.uploadProgress <= r.uploadProgress
    ensures step == Tick && u.uploadProgress < 90 ==> r.uploadProgress > u.uploadProgress
    ensures step.Complete? ==> r.status == Completed && r.uploadProgress == 100
    ensures step.Complete? ==> r.driveFileId == Some(step.fileId) && r.downloadUrl == Some(GetDownloadUrl(step.fileId))
    ensures step == Fail ==> r.status == Failed && r.uploadProgress == 0
    ensures !step.Complete? ==> r.driveFileId == u.driveFileId && r.downloadUrl == u.downloadUrl
  {
    match step
    case Tick => u.(uploadProgress := Min(u.uploadProgress + 10, 90))
    case Complete(fileId) =>
      u.(uploadProgress := 100, status := Completed, driveFileId := Some(fileId),
         downloadUrl := Some(GetDownloadUrl(fileId)))
    case Fail => u.(status := Failed, uploadProgress := 0)
  }

  /** `prev.map(f => f.id === id ? step(f) : f)` */
  function UpdateUnits(files: seq<UploadedFile>, id: string, step: Step): (r: seq<UploadedFile>)
    ensures |r| == |files|
    ensures forall i :: 0 <= i < |files| && files[i].id != id ==> r[i] == files[i]
    ensures forall i :: 0 <= i < |files| && files[i].id == id ==> r[i] == Apply(files[i], step)
  {
    seq(|files|, i requires 0 <= i < |files| => if files[i].id == id then Apply(files[i], step) else files[i])
  }

  /** A completion or failure that arrives after its unit was removed changes nothing. */
  lemma UpdateAbsentUnit(files: seq<UploadedFile>, id: string, step: Step)
    requires forall u :: u in files ==> u.id != id
    ensures UpdateUnits(files, id, step) == files
  {
    var r := UpdateUnits(files, id, step);
    forall i | 0 <= i < |files| ensures r[i] == files[i] {
      assert files[i] in files;
    }
  }

  /** `n` ticks in a row. */
  function Ticks(u: UploadedFile, n: nat): UploadedFile
  {
    if n == 0 then u else Apply(Ticks(u, n - 1), Tick)
  }

  /** While the ticker runs, progress climbs by 10 per tick and stops at 90. */
  lemma {:induction false} TicksApproachNinety(u: UploadedFile, n: nat)
    requires u.uploadProgress <= 90
    ensures Ticks(u, n).uploadProgress == Min(u.uploadProgress + 10 * n, 90)
    ensures Ticks(u, n).status == u.status
  {
    if n > 0 {
      TicksApproachNinety(u, n - 1);
    }
  }

  /** `prev.filter(f => f.id !== id)` */
  function RemoveUnit(files: seq<UploadedFile>, id: string): (r: seq<UploadedFile>)
    ensures IsSubsequence(r, files)
    ensures forall u :: u in r <==> u in files && u.id != id
  {
    if files == [] then []
    else
      var rest := RemoveUnit(files[1..], id);
      assert forall u :: u in files <==> u == files[0] || u in files[1..];
      if files[0].id == id then rest else [files[0]] + rest
  }

  /** `gameFiles.filter(f => f.status === 'completed')` */
  function CompletedUnits(files: seq<UploadedFile>): (r: seq<UploadedFile>)
    ensures IsSubsequence(r, files)
    ensures forall u :: u in r <==> u in files && u.status == Completed
  {
    if files == [] then []
    else
      var rest := CompletedUnits(files[1..]);
      assert forall u :: u in files <==> u == files[0] || u in files[1..];
      if files[0].status == Completed then [files[0]] + rest else rest
  }

  // ---------------------------------------------------------------------------
  // The invariant of the upload list

  /** No two units share an id. */
  predicate DistinctIds(files: seq<UploadedFile>)
  {
    forall i, j :: 0 <= i < j < |files| ==> files[i].id != files[j].id
  }

  /** Ids are distinct; a completed unit is at 100 with its build id and download URL and no
      running ticker; any other unit is between 0 and 90. A failed upload never stops its
      ticker, so a failed unit may climb back up to 90. */
  predicate UnitsValid(files: seq<UploadedFile>, ticking: set<string>)
  {
    DistinctIds(files) &&
    forall u :: u in files ==>
      if u.status == Completed then
        u.uploadProgress == 100 && u.id !in ticking &&
        u.driveFileId.Some? && u.downloadUrl == Some(GetDownloadUrl(u.driveFileId.value))
      else
        0 <= u.uploadProgress <= 90
  }

  /** A tick of a running ticker, a completion (which stops that ticker) and a failure (which
      does not) each keep the upload list valid. */
  lemma StepKeepsValid(files: seq<UploadedFile>, ticking: set<string>, id: string, step: Step)
    requires UnitsValid(files, ticking)
    requires step == Tick ==> id in ticking
    ensures UnitsValid(UpdateUnits(files, id, step), if step.Complete? then ticking - {id} else ticking)
  {
    var r := UpdateUnits(files, id, step);
    var t := if step.Complete? then ticking - {id} else ticking;
    forall u | u in r
      ensures if u.status == Completed then
                u.uploadProgress == 100 && u.id !in t &&
                u.driveFileId.Some? && u.downloadUrl == Some(GetDownloadUrl(u.driveFileId.value))
              else 0 <= u.uploadProgress <= 90
    {
      var i :| 0 <= i < |r| && r[i] == u;
      assert files[i] in files;
    }
  }

  /** Appending a unit with a fresh id and a fresh ticker keeps the list valid. */
  lemma AppendKeepsValid(files: seq<UploadedFile>, ticking: set<string>, u: UploadedFile)
    requires UnitsValid(files, ticking)
    requires forall v :: v in files ==> v.id != u.id
    requires u.status == Uploading && u.uploadProgress == 0
    ensures UnitsValid(files + [u], ticking + {u.id})
  {
    var r := files + [u];
    forall i, j | 0 <= i < j < |r| ensures r[i].id != r[j].id {
      if j < |files| {
      } else {
        assert r[i] in files;
      }
    }
  }

  /** Removing the units with an id keeps the ids distinct. */
  lemma {:induction false} RemoveKeepsDistinct(files: seq<UploadedFile>, id: string)
    requires DistinctIds(files)
    ensures DistinctIds(RemoveUnit(files, id))
  {
    if files != [] {
      var tail := files[1..];
      assert DistinctIds(tail) by {
        forall i, j | 0 <= i < j < |tail| ensures tail[i].id != tail[j].id {
          assert tail[i] == files[i + 1] && tail[j] == files[j + 1];
        }
      }
      RemoveKeepsDistinct(tail, id);
      var rest := RemoveUnit(tail, id);
      if files[0].id != id {
        var r := [files[0]] + rest;
        assert RemoveUnit(files, id) == r;
        forall i, j | 0 <= i < j < |r| ensures r[i].id != r[j].id {
          assert r[j] == rest[j - 1];
          if i == 0 {
            assert rest[j - 1] in rest;
            var k :| 0 <= k < |tail| && tail[k] == r[j];
            assert files[k + 1] == r[j];
          } else {
            assert r[i] == rest[i - 1];
          }
        }
      } else {
        assert RemoveUnit(files, id) == rest;
      }
    }
  }

  /** Removing the units with an id keeps the list valid. */
  lemma RemoveKeepsValid(files: seq<UploadedFile>, ticking: set<string>, id: string)
    requires UnitsValid(files, ticking)
    ensures UnitsValid(RemoveUnit(files, id), ticking)
  {
    RemoveKeepsDistinct(files, id);
  }

  // ---------------------------------------------------------------------------
  // Tags and platforms of the form

  /** `addTag`: the trimmed text is appended when it is non-empty and not already a tag. */
  function TagsAfterAdd(tags: seq<string>, typed: string): (r: seq<string>)
    ensures NoDuplicates(tags) ==> NoDuplicates(r)
    ensures Trim(typed) != "" ==> Trim(typed) in r
    ensures forall t :: t in r <==> t in tags || (t == Trim(typed) && t != "")
    ensures r == tags || r == tags + [Trim(typed)]
  {
    var t := Trim(typed);
    if t != "" && t !in tags then tags + [t] else tags
  }

  // ---------------------------------------------------------------------------
  // Submission

  const NeedLogin := "Необходимо авторизоваться"
  const FillRequired := "Заполните все обязательные поля"
  const NeedPlatform := "Выберите хотя бы одну платформу"
  const NeedFile := "Загрузите хотя бы один файл игры"
  const PublishFailed := "Ошибка при публикации игры"

  predicate RequiredFilled(form: GameForm)
  {
    form.title != "" && form.shortDescription != "" && form.genre != ""
  }

  /** The checks of `handleSubmit`, in order; the first that fails decides the message. */
  function SubmitError(profile: Option<UserProfile>, form: GameForm, files: seq<UploadedFile>): (r: Option<string>)
    ensures r == Some(NeedLogin) <==> profile.None?
    ensures r == Some(FillRequired) <==> profile.Some? && !RequiredFilled(form)
    ensures r == Some(NeedPlatform) <==> profile.Some? && RequiredFilled(form) && form.platforms == []
    ensures r == Some(NeedFile) <==>
      profile.Some? && RequiredFilled(form) && form.platforms != [] &&
      forall u :: u in files ==> u.status != Completed
    ensures r.None? <==>
      profile.Some? && RequiredFilled(form) && form.platforms != [] &&
      exists u :: u in files && u.status == Completed
  {
    if profile.None? then Some(NeedLogin)
    else if !RequiredFilled(form) then Some(FillRequired)
    else if form.platforms == [] then Some(NeedPlatform)
    else if CompletedUnits(files) == [] then Some(NeedFile)
    else
      assert CompletedUnits(files)[0] in CompletedUnits(files);
      None
  }

  /** The record `handleSubmit` passes to `createGame`. `parsed` is `parseFloat(form.price)`,
      `None` when that is not a number; `now` is the clock reading. */
  function SubmittedGame(form: GameForm, profile: UserProfile, parsed: Option<real>, now: int): (g: GameData)
    ensures g.isFree <==> form.priceType == Free
    ensures g.isFree ==> g.price == 0.0
    ensures !g.isFree && parsed.Some? ==> g.price == parsed.value
    ensures !g.isFree && parsed.None? ==> g.price == 0.0
    ensures g.status == Published <==> form.visibility == Public
    ensures g.status == Draft <==> form.visibility != Public
    ensures g.developer != ""
    ensures profile.displayName != "" ==> g.developer == profile.displayName
    ensures profile.displayName == "" ==> g.developer == "Unknown"
    ensures g.developerId == profile.uid
    ensures g.title == form.title && g.shortDescription == form.shortDescription
    ensures g.fullDescription == form.fullDescription && g.genre == form.genre
    ensures g.platforms == form.platforms && g.tags == form.tags
    ensures g.coverImageUrl == "" && g.screenshots == [] && g.builds == []
  {
    GameData(
      None,
      form.title,
      if profile.displayName != "" then profile.displayName else "Unknown",
      profile.uid,
      form.shortDescription,
      form.fullDescription,
      form.genre,
      form.platforms,
      if form.priceType == Free then 0.0 else if parsed.Some? then parsed.value else 0.0,
      form.priceType == Free,
      "",
      [],
      form.tags,
      if form.visibility == Public then Published else Draft,
      now,
      now,
      0.0,
      0,
      [])
  }

  /** The game as it stands after submission: created, then linked to the builds stored
      under its id. */
  function PublishedGame(form: GameForm, profile: UserProfile, parsed: Option<real>, id: string,
                         builds: seq<BuildDoc>, now: int): GameData
  {
    CreatedRecord(SubmittedGame(form, profile, parsed, now), now).(builds := BuildsFor(builds, id))
  }

  /** An upload from this page is stored under the placeholder game id, so it is never among
      the builds linked to a real game. */
  lemma UploadNeverLinked(builds: seq<BuildDoc>, docId: string, mockFileId: string, file: FileInfo,
                          platform: string, now: int, gameId: string)
    requires forall d :: d in builds ==> d.docId != docId
    requires gameId != TempGameId
    ensures BuildsFor(UploadFile(builds, docId, mockFileId, file, TempGameId, platform, now), gameId)
         == BuildsFor(builds, gameId)
  {
    var stored := UploadFile(builds, docId, mockFileId, file, TempGameId, platform, now);
    assert stored == builds + [stored[|builds|]];
    BuildsForAppend(builds, stored[|builds|], gameId);
  }

  /** `failAt` is the position, among the completed uploads, of the first `addBuildToGame`
      call that throws, if any: some link of this submission fails. */
  predicate LinkFails(failAt: Option<nat>, files: seq<UploadedFile>)
  {
    failAt.Some? && failAt.value < |CompletedUnits(files)|
  }

  /** The store writes of a submission that passed its checks: `createGame`, then
      `addBuildToGame` once per completed unit, each with the unit's local id, stopping at the
      first call that throws. `linked` is whether every call succeeded. */
  method PublishGame(games: map<string, GameData>, id: string, form: GameForm, profile: UserProfile,
                     parsed: Option<real>, files: seq<UploadedFile>, builds: seq<BuildDoc>, now: int,
                     failAt: Option<nat>)
    returns (after: map<string, GameData>, linked: bool)
    requires id !in games
    requires exists u :: u in files && u.status == Completed
    ensures linked <==> !LinkFails(failAt, files)
    ensures linked ==> after == games[id := PublishedGame(form, profile, parsed, id, builds, now)]
    ensures LinkFails(failAt, files) ==>
      after == games[id := if failAt.value == 0 then CreatedRecord(SubmittedGame(form, profile, parsed, now), now)
                           else PublishedGame(form, profile, parsed, id, builds, now)]
  {
    var created := CreatedRecord(SubmittedGame(form, profile, parsed, now), now);
    assert created.(builds := BuildsFor(builds, id)) == PublishedGame(form, profile, parsed, id, builds, now);
    var completed := CompletedUnits(files);
    var u :| u in files && u.status == Completed;
    assert u in completed;
    after := CreateGame(games, id, SubmittedGame(form, profile, parsed, now), now);
    after, linked := LinkAll(games, after, created, builds, id, completed, now, failAt);
  }

  /** The `addBuildToGame` loop over the completed units `units`, on the game `id` holding `g`,
      stopping at the call at position `failAt` if that one throws. */
  method LinkAll(games: map<string, GameData>, current: map<string, GameData>, g: GameData,
                 builds: seq<BuildDoc>, id: string, units: seq<UploadedFile>, now: int, failAt: Option<nat>)
    returns (after: map<string, GameData>, linked: bool)
    requires current == games[id := g] && g.updatedAt == now && |units| > 0
    ensures linked <==> failAt.None? || failAt.value >= |units|
    ensures linked ==> after == games[id := g.(builds := BuildsFor(builds, id))]
    ensures !linked ==> after == games[id := if failAt.value == 0 then g else g.(builds := BuildsFor(builds, id))]
  {
    var full := g.(builds := BuildsFor(builds, id));
    after, linked := current, true;
    var i := 0;
    while i < |units|
      invariant 0 <= i <= |units|
      invariant after == games[id := if i == 0 then g else full]
      invariant failAt.None? || failAt.value >= i
    {
      if failAt == Some(i) {
        linked := false;
        return;
      }
      after := LinkOnce(games, after, if i == 0 then g else full, builds, id, units[i].id, now);
      i := i + 1;
    }
  }

  /** One `addBuildToGame` call on the game `id` holding `g`: the game now lists the builds
      stored under its id, and nothing else changes. */
  method LinkOnce(games: map<string, GameData>, current: map<string, GameData>, g: GameData,
                  builds: seq<BuildDoc>, id: string, buildId: string, now: int)
    returns (next: map<string, GameData>)
    requires current == games[id := g] && g.updatedAt == now
    ensures next == games[id := g.(builds := BuildsFor(builds, id))]
  {
    var r := AddBuildToGame(current, builds, id, buildId, now);
    assert g.(builds := BuildsFor(builds, id), updatedAt := now) == g.(builds := BuildsFor(builds, id));
    next := r.value;
  }

  // ---------------------------------------------------------------------------
  // The page

  class AddGamePage {
    var form: GameForm
    var files: seq<UploadedFile>
    var loading: bool
    var error: string
    var currentTag: string
    /** The uploads whose progress ticker is still running. */
    var ticking: set<string>

    ghost predicate Valid()
      reads this
    {
      UnitsValid(files, ticking) && NoDuplicates(form.tags)
    }

    constructor ()
      ensures form == InitialForm && files == [] && !loading && error == "" && currentTag == ""
      ensures ticking == {}
      ensures Valid()
    {
      form := InitialForm;
      files := [];
      loading := false;
      error := "";
      currentTag := "";
      ticking := {};
    }

    /** `handleFileUpload` up to the upload call: reject an oversized or unsupported file,
        otherwise append a new unit at progress 0 and start its ticker. `uploadId` is the
        clock reading used as id, assumed fresh. */
    method HandleFileUpload(selected: seq<FileInfo>, platform: string, uploadId: string)
      requires Valid()
      requires forall u :: u in files ==> u.id != uploadId
      requires uploadId !in ticking
      modifies this
      ensures Valid()
      ensures form == old(form) && loading == old(loading) && currentTag == old(currentTag)
      ensures selected == [] ==> files == old(files) && ticking == old(ticking) && error == old(error)
      ensures selected != [] && FileError(selected[0]).Some? ==>
        files == old(files) && ticking == old(ticking) && error == FileError(selected[0]).value
      ensures selected != [] && FileError(selected[0]).None? ==>
        files == old(files) + [UploadedFile(uploadId, selected[0], platform, 0, Uploading, None, None)] &&
        ticking == old(ticking) + {uploadId} && error == ""
    {
      if selected == [] {
        return;
      }
      var file := selected[0];
      var problem := FileError(file);
      if problem.Some? {
        error := problem.value;
        return;
      }
      var unit := UploadedFile(uploadId, file, platform, 0, Uploading, None, None);
      AppendKeepsValid(files, ticking, unit);
      files := files + [unit];
      error := "";
      ticking := ticking + {uploadId};
    }

    /** One firing of the ticker of upload `uploadId`. */
    method ProgressTick(uploadId: string)
      requires Valid()
      requires uploadId in ticking
      modifies this
      ensures Valid()
      ensures files == UpdateUnits(old(files), uploadId, Tick)
      ensures form == old(form) && ticking == old(ticking) && error == old(error)
      ensures loading == old(loading) && currentTag == old(currentTag)
    {
      StepKeepsValid(files, ticking, uploadId, Tick);
      files := UpdateUnits(files, uploadId, Tick);
    }

    /** The upload call returns: the build is stored under the placeholder game id, the
        ticker stops, and the unit completes with the new build document's id. */
    method FinishUpload(uploadId: string, file: FileInfo, platform: string,
                        builds: seq<BuildDoc>, docId: string, mockFileId: string, now: int)
      returns (stored: seq<BuildDoc>)
      requires Valid()
      requires forall d :: d in builds ==> d.docId != docId
      requires forall u :: u in files && u.id == uploadId ==> u.file == file && u.platform == platform
      modifies this
      ensures Valid()
      ensures stored == UploadFile(builds, docId, mockFileId, file, TempGameId, platform, now)
      ensures files == UpdateUnits(old(files), uploadId, Complete(docId))
      ensures ticking == old(ticking) - {uploadId}
      ensures form == old(form) && error == old(error) && loading == old(loading) && currentTag == old(currentTag)
    {
      stored := UploadFile(builds, docId, mockFileId, file, TempGameId, platform, now);
      var fileId := docId;
      StepKeepsValid(files, ticking, uploadId, Complete(fileId));
      ticking := ticking - {uploadId};
      files := UpdateUnits(files, uploadId, Complete(fileId));
    }

    /** The upload call throws: the unit is marked failed at progress 0 and the error shown;
        the ticker is left running. */
    method FailUpload(uploadId: string)
      requires Valid()
      modifies this
      ensures Valid()
      ensures files == UpdateUnits(old(files), uploadId, Fail)
      ensures error == UploadFailed
      ensures form == old(form) && ticking == old(ticking) && loading == old(loading) && currentTag == old(currentTag)
    {
      StepKeepsValid(files, ticking, uploadId, Fail);
      files := UpdateUnits(files, uploadId, Fail);
      error := UploadFailed;
    }

    /** `removeFile` */
    method RemoveFile(fileId: string)
      requires Valid()
      modifies this
      ensures Valid()
      ensures files == RemoveUnit(old(files), fileId)
      ensures form == old(form) && ticking == old(ticking) && error == old(error)
      ensures loading == old(loading) && currentTag == old(currentTag)
    {
      RemoveKeepsValid(files, ticking, fileId);
      files := RemoveUnit(files, fileId);
    }

    /** The tag input's change handler. */
    method SetCurrentTag(text: string)
      modifies this
      ensures currentTag == text
      ensures form == old(form) && files == old(files) && ticking == old(ticking)
      ensures error == old(error) && loading == old(loading)
    {
      currentTag := text;
    }

    /** `addTag`: the input is cleared only when a tag was added. */
    method AddTag()
      requires Valid()
      modifies this
      ensures Valid()
      ensures form == old(form).(tags := TagsAfterAdd(old(form.tags), old(currentTag)))
      ensures currentTag == if form.tags != old(form.tags) then "" else old(currentTag)
      ensures files == old(files) && ticking == old(ticking) && error == old(error) && loading == old(loading)
    {
      var t := Trim(currentTag);
      if t != "" && t !in form.tags {
        form := form.(tags := form.tags + [t]);
        currentTag := "";
      }
    }

    /** `removeTag` */
    method RemoveTag(tag: string)
      requires Valid()
      modifies this
      ensures Valid()
      ensures form == old(form).(tags := RemoveAll(old(form.tags), tag))
      ensures files == old(files) && ticking == old(ticking) && error == old(error)
      ensures loading == old(loading) && currentTag == old(currentTag)
    {
      RemoveAllOrder(form.tags, tag);
      form := form.(tags := RemoveAll(form.tags, tag));
    }

    /** A platform checkbox: checking appends the platform, unchecking removes it. */
    method TogglePlatform(platform: string, checked: bool)
      requires Valid()
      modifies this
      ensures Valid()
      ensures checked ==> form == old(form).(platforms := old(form.platforms) + [platform])
      ensures !checked ==> form == old(form).(platforms := RemoveAll(old(form.platforms), platform))
      ensures files == old(files) && ticking == old(ticking) && error == old(error)
      ensures loading == old(loading) && currentTag == old(currentTag)
    {
      if checked {
        form := form.(platforms := form.platforms + [platform]);
      } else {
        form := form.(platforms := RemoveAll(form.platforms, platform));
      }
    }

    /** `handleSubmit`. `newGameId` is the id the store assigns to the new game, `None` when
        the write fails; `failAt` is the position of the first `addBuildToGame` call that
        throws, if any; `parsed` is `parseFloat(form.price)`. Each completed unit is linked
        with its local id, which the store ignores. Returns the games collection afterwards
        and the route navigated to. */
    method Submit(profile: Option<UserProfile>, parsed: Option<real>, games: map<string, GameData>,
                  newGameId: Option<string>, failAt: Option<nat>, builds: seq<BuildDoc>, now: int)
      returns (after: map<string, GameData>, route: Option<string>)
      requires Valid()
      requires newGameId.Some? ==> newGameId.value !in games
      modifies this
      ensures Valid()
      ensures form == old(form) && files == old(files) && ticking == old(ticking) && currentTag == old(currentTag)
      ensures SubmitError(profile, form, files).Some? ==>
        error == SubmitError(profile, form, files).value && loading == old(loading) &&
        after == games && route == None
      ensures SubmitError(profile, form, files).None? && newGameId.None? ==>
        error == PublishFailed && !loading && after == games && route == None
      ensures SubmitError(profile, form, files).None? && newGameId.Some? && !LinkFails(failAt, files) ==>
        error == "" && !loading && route == Some("/dashboard") &&
        after == games[newGameId.value := PublishedGame(form, profile.value, parsed, newGameId.value, builds, now)]
      ensures SubmitError(profile, form, files).None? && newGameId.Some? && LinkFails(failAt, files) ==>
        error == PublishFailed && !loading && route == None &&
        after == games[newGameId.value :=
          if failAt.value == 0 then CreatedRecord(SubmittedGame(form, profile.value, parsed, now), now)
          else PublishedGame(form, profile.value, parsed, newGameId.value, builds, now)]
    {
      var problem := SubmitError(profile, form, files);
      if problem.Some? {
        error := problem.value;
        return games, None;
      }
      loading := true;
      error := "";
      if newGameId.None? {
        error := PublishFailed;
        loading := false;
        return games, None;
      }
      var linked;
      after, linked := PublishGame(games, newGameId.value, form, profile.value, parsed, files, builds, now, failAt);
      if linked {
        route := Some("/dashboard");
      } else {
        error := PublishFailed;
        route := None;
      }
      loading := false;
    }
  }
}
