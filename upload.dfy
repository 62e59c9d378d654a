/** The upload session (`UploadedFile`): an incoming file that is staged
    into the temporary directory, optionally edited there by profiles, and
    copied to a fresh name under the storage location.

    The pure part states each step as a function of the session's state;
    the class below runs the steps on a `Disk` and is proved to follow
    them. */
module Upload {
  import opened Types
  import opened PhpArray
  import opened PhpString
  import opened Paths
  import opened Storage
  import opened Naming
  import opened Profiles
  import opened Transform
  import opened Settings

  /** What a session reads and never changes: the configuration, the image
      library, the client's file name and extension, and which paths the
      disk refuses to write. */
  datatype Env = Env(cfg: Settings, engine: Engine, clientName: string, clientExt: string, unwritable: set<string>)

  /** The session's fields together with the disk's files. `inbound` is the
      upload still waiting in PHP's upload directory; once it has been moved
      it is gone. Each `...File` is the path of the `File` object the
      source keeps, relative to the storage root. */
  datatype Session = Session(
    files: map<string, Content>,
    inbound: Option<Content>,
    useProfiles: seq<string>,
    profiles: ProfileMap,
    originalFile: Option<string>,
    originalName: Option<string>,
    editedFile: Option<string>,
    editedName: Option<string>)

  /** `makeTemporaryFile($original)` with `Str::random()` returning `token`.
      The original is moved in from the upload directory; the edited copy is
      a disk copy of the staged original, and the `File` returned for it
      points at the original. */
  function MakeTemporary(env: Env, s: Session, original: bool, token: string): (r: (Session, Result<string, Error>))
    ensures r.1.Success? ==> Join(env.cfg.temporary, token) in r.0.files
    ensures original && r.1.Success? ==> r.0.inbound.None?
    ensures !original ==> r.0.inbound == s.inbound
    ensures r.0.profiles == s.profiles && r.0.useProfiles == s.useProfiles
  {
    if RootPath(env.cfg.disk).Failure? then (s, Failure(RootPath(env.cfg.disk).error))
    else if original then
      var dst := Join(env.cfg.temporary, token);
      var s1 := s.(originalName := Some(token));
      if s.inbound.None? || dst in env.unwritable then (s1, Failure(StagingFailed))
      else (s1.(files := s.files[dst := s.inbound.value], inbound := None), Success(dst))
    else
      var src := Join(env.cfg.temporary, OrEmpty(s.originalName));
      var dst := Join(env.cfg.temporary, token);
      if src !in s.files || dst in env.unwritable then (s, Failure(EditingCopyFailed(src)))
      else (s.(files := s.files[dst := s.files[src]], editedName := Some(token)), Success(src))
  }

  /** What `makeTemporaryFile` does, case by case: the content it moves or
      copies, the name it records, the path it returns, and when it throws. */
  lemma MakeTemporaryOutcome(env: Env, s: Session, original: bool, token: string)
    // an unsupported driver throws before anything changes
    ensures RootPath(env.cfg.disk).Failure? ==>
              MakeTemporary(env, s, original, token) == (s, Failure(RootPath(env.cfg.disk).error))
    // staging: the upload is moved to `temp/token`, and the name is recorded even when the move fails
    ensures RootPath(env.cfg.disk).Success? && original ==>
              var r := MakeTemporary(env, s, original, token);
              var dst := Join(env.cfg.temporary, token);
              && (r.1.Success? <==> s.inbound.Some? && dst !in env.unwritable)
              && (r.1.Success? ==>
                    r == (s.(files := s.files[dst := s.inbound.value], inbound := None, originalName := Some(token)), Success(dst)))
              && (r.1.Failure? ==> r == (s.(originalName := Some(token)), Failure(StagingFailed)))
    // the editing copy: the staged original is copied to `temp/token`, and the original's path is returned
    ensures RootPath(env.cfg.disk).Success? && !original ==>
              var r := MakeTemporary(env, s, original, token);
              var src := Join(env.cfg.temporary, OrEmpty(s.originalName));
              var dst := Join(env.cfg.temporary, token);
              && (r.1.Success? <==> src in s.files && dst !in env.unwritable)
              && (r.1.Success? ==> r == (s.(files := s.files[dst := s.files[src]], editedName := Some(token)), Success(src)))
              && (r.1.Failure? ==> r == (s, Failure(EditingCopyFailed(src))))
  {
  }

  /** `processImage`: open the image at `src`; when it cannot be read,
      nothing happens; otherwise run the profile on it and save it to `dst`. */
  function ImageStep(e: Engine, files: map<string, Content>, p: Profile, src: string, dst: string): map<string, Content>
  {
    if src in files && e.readable(files[src]) then files[dst := ApplySteps(e, p, files[src])] else files
  }

  /** The files after a run over profile names, and the exception that
      stopped it, if any. */
  datatype Run = Run(files: map<string, Content>, error: Option<Error>)

  /** The `foreach ($profiles as $name)` loop of `processFile`: look each
      name up (an unknown one throws) and run the image profiles. */
  function ProcessNames(e: Engine, files: map<string, Content>, ps: ProfileMap, names: seq<string>, src: string, dst: string): (r: Run)
    ensures forall p :: p != dst ==> (p in r.files <==> p in files)
    ensures forall p :: p != dst && p in files ==> r.files[p] == files[p]
    decreases |names|
  {
    if names == [] then Run(files, None)
    else
      match GetProfile(ps, names[0])
      case Failure(err) => Run(files, Some(err))
      case Success(p) =>
        ProcessNames(e, if IsImage(p) then ImageStep(e, files, p, src, dst) else files, ps, names[1..], src, dst)
  }

  /** `$this->useProfiles ?: array_keys($this->getDefaultImageProfiles())`. */
  function Names(env: Env, s: Session): seq<string>
  {
    if s.useProfiles != [] then s.useProfiles
    else Keys(Selection(GetProfiles(s.profiles, env.cfg.profiles), Some(env.cfg.defaults)))
  }

  /** `"{$temp}/{$this->temporaryEditedName}"`, with an unset name reading
      as the empty string. */
  function EditedPath(env: Env, s: Session): string
  {
    Join(env.cfg.temporary, OrEmpty(s.editedName))
  }

  /** `processFile`, with `token` the random name of the edited copy. */
  function ProcessFileStep(env: Env, s: Session, token: string): (r: (Session, Option<Error>))
    ensures r.0.inbound == s.inbound && r.0.profiles == s.profiles
    ensures r.0.originalName == s.originalName
  {
    var names := Names(env, s);
    if names == [] then (s, None)
    else
      var made := MakeTemporary(env, s, false, token);
      if made.1.Failure? then (made.0, Some(made.1.error))
      else
        var s2 := made.0.(editedFile := Some(made.1.value));
        var run := ProcessNames(env.engine, s2.files, GetProfiles(s2.profiles, env.cfg.profiles), names,
                                made.1.value, EditedPath(env, s2));
        if run.error.Some? then (s2.(files := run.files), run.error)
        else (s2.(files := run.files, useProfiles := [], editedFile := None), None)
  }

  /** The first two steps of `save`: stage the original, then process it. */
  function Prepared(env: Env, s: Session, originalToken: string, editedToken: string): (Session, Option<Error>)
  {
    var staged := MakeTemporary(env, s, true, originalToken);
    if staged.1.Failure? then (staged.0, Some(staged.1.error))
    else ProcessFileStep(env, staged.0.(originalFile := Some(staged.1.value)), editedToken)
  }

  /** The naming job of this session. */
  function SessionJob(env: Env, suffix: Option<string>, date: Date): Job
  {
    JobFor(env.cfg, env.clientName, env.clientExt, suffix, date)
  }

  /** `save($suffix)`: the filename (`Some`), `null` (`None`) when the final
      copy fails, or the exception that stopped it. */
  function SaveStep(env: Env, s: Session, suffix: Option<string>, date: Date,
                    originalToken: string, editedToken: string, digits: seq<Digit>): (r: (Session, Result<Option<string>, Error>))
    ensures r.1.Success? ==> MakeTemporary(env, s, true, originalToken).1.Success?
    ensures r.1.Success? ==> r.0.inbound.None?
  {
    var pr := Prepared(env, s, originalToken, editedToken);
    if pr.1.Some? then (pr.0, Failure(pr.1.value))
    else
      var s3 := pr.0;
      match Allocation(s3.files, SessionJob(env, suffix, date), digits)
      case Failure(err) => (s3, Failure(err))
      case Success(f) =>
        var src := EditedPath(env, s3);
        var dst := Destination(env.cfg.location, f);
        if src in s3.files && dst !in env.unwritable then (s3.(files := s3.files[dst := s3.files[src]]), Success(Some(f)))
        else (s3, Success(None))
  }

  // ---------------------------------------------------------------------
  // Properties of the steps

  /** The image profile that the run leaves in the edited copy: the last
      name in the list whose profile is an image profile. */
  function LastImage(ps: ProfileMap, names: seq<string>): (r: Option<Profile>)
    ensures r.Some? ==> IsImage(r.value)
  {
    if names == [] then None
    else
      var rest := LastImage(ps, names[1..]);
      if rest.Some? then rest
      else
        match GetProfile(ps, names[0])
        case Success(p) => if IsImage(p) then Some(p) else None
        case Failure(_) => None
  }

  /** The files after running `last`, if any, from `src` into `dst`. */
  function Final(e: Engine, files: map<string, Content>, last: Option<Profile>, src: string, dst: string): map<string, Content>
  {
    match last
    case None => files
    case Some(p) => ImageStep(e, files, p, src, dst)
  }

  /** A later image step overwrites an earlier one: both read the same
      original and write the same edited copy. */
  lemma ImageStepOverwrites(e: Engine, files: map<string, Content>, p: Profile, q: Profile, src: string, dst: string)
    requires src != dst
    ensures ImageStep(e, ImageStep(e, files, p, src, dst), q, src, dst) == ImageStep(e, files, q, src, dst)
  {
    if src in files && e.readable(files[src]) {
      var f1 := files[dst := ApplySteps(e, p, files[src])];
      assert f1[src] == files[src];
      assert f1[dst := ApplySteps(e, q, files[src])] == files[dst := ApplySteps(e, q, files[src])];
    }
  }

  /** Every image profile re-reads the original, so after a run in which
      every name is known, the edited copy holds the last image profile's
      result and no other file has changed. */
  lemma {:induction false} LastImageWins(e: Engine, files: map<string, Content>, ps: ProfileMap, names: seq<string>, src: string, dst: string)
    requires src != dst
    requires forall i :: 0 <= i < |names| ==> names[i] in Keys(ps)
    ensures ProcessNames(e, files, ps, names, src, dst) == Run(Final(e, files, LastImage(ps, names), src, dst), None)
    decreases |names|
  {
    if names != [] {
      var p := GetProfile(ps, names[0]).value;
      var files1 := if IsImage(p) then ImageStep(e, files, p, src, dst) else files;
      forall i | 0 <= i < |names[1..]| ensures names[1..][i] in Keys(ps) {
        assert names[1..][i] == names[i + 1];
      }
      LastImageWins(e, files1, ps, names[1..], src, dst);
      var rest := LastImage(ps, names[1..]);
      if rest.Some? && IsImage(p) {
        ImageStepOverwrites(e, files, p, rest.value, src, dst);
      }
    }
  }

  /** `names[i]` is the first name in the list that is not a profile. */
  predicate FirstUnknown(ps: ProfileMap, names: seq<string>, i: int)
  {
    && 0 <= i < |names| && names[i] !in Keys(ps)
    && forall j :: 0 <= j < i ==> names[j] in Keys(ps)
  }

  /** Putting a known name in front moves the first unknown name one place on. */
  lemma FirstUnknownShift(ps: ProfileMap, names: seq<string>, i: int)
    requires names != [] && names[0] in Keys(ps)
    requires FirstUnknown(ps, names[1..], i)
    ensures FirstUnknown(ps, names, i + 1) && names[i + 1] == names[1..][i]
  {
    forall j | 0 <= j < i + 1 ensures names[j] in Keys(ps) {
      if j > 0 {
        assert names[j] == names[1..][j - 1];
      }
    }
  }

  /** The run stops at the first unknown name with that name's exception,
      and raises nothing when every name is known. */
  lemma {:induction false} UnknownProfileStops(e: Engine, files: map<string, Content>, ps: ProfileMap, names: seq<string>, src: string, dst: string)
    ensures ProcessNames(e, files, ps, names, src, dst).error.None?
        <==> forall i :: 0 <= i < |names| ==> names[i] in Keys(ps)
    ensures ProcessNames(e, files, ps, names, src, dst).error.Some? ==>
              exists i :: FirstUnknown(ps, names, i)
                          && ProcessNames(e, files, ps, names, src, dst).error == Some(UnknownProfile(names[i]))
    decreases |names|
  {
    if names != [] && names[0] in Keys(ps) {
      var p := GetProfile(ps, names[0]).value;
      var files1 := if IsImage(p) then ImageStep(e, files, p, src, dst) else files;
      var run := ProcessNames(e, files, ps, names, src, dst);
      assert run == ProcessNames(e, files1, ps, names[1..], src, dst);
      UnknownProfileStops(e, files1, ps, names[1..], src, dst);
      assert forall i :: 0 <= i < |names[1..]| ==> names[1..][i] == names[i + 1];
      if run.error.Some? {
        var i :| FirstUnknown(ps, names[1..], i) && run.error == Some(UnknownProfile(names[1..][i]));
        FirstUnknownShift(ps, names, i);
      }
    } else if names != [] {
      assert FirstUnknown(ps, names, 0);
    }
  }

  /** With no profiles to run, `processFile` returns at once and changes
      nothing: no edited copy is made. */
  lemma NoProfilesNoCopy(env: Env, s: Session, token: string)
    requires Names(env, s) == []
    ensures ProcessFileStep(env, s, token) == (s, None)
  {
  }

  /** When the default profiles are used, each default image profile runs in
      map order. */
  lemma DefaultNamesInMapOrder(env: Env, s: Session)
    requires s.useProfiles == []
    requires UniqueKeys(GetProfiles(s.profiles, env.cfg.profiles))
    ensures Names(env, s) == ChosenNames(GetProfiles(s.profiles, env.cfg.profiles), Some(env.cfg.defaults))
  {
    DefaultNames(GetProfiles(s.profiles, env.cfg.profiles), env.cfg.defaults);
  }

  /** A normal run of `processFile`: the edited copy starts as a copy of the
      original and ends as the last image profile's result (or the plain
      copy when the original is unreadable or no profile is an image one);
      `useProfiles` is emptied and `temporaryEditedFile` cleared. */
  lemma ProcessFileEdits(env: Env, s: Session, token: string)
    requires RootPath(env.cfg.disk).Success?
    requires Names(env, s) != []
    requires forall i :: 0 <= i < |Names(env, s)| ==> Names(env, s)[i] in Keys(GetProfiles(s.profiles, env.cfg.profiles))
    requires Join(env.cfg.temporary, OrEmpty(s.originalName)) in s.files
    requires Join(env.cfg.temporary, token) != Join(env.cfg.temporary, OrEmpty(s.originalName))
    requires Join(env.cfg.temporary, token) !in env.unwritable
    ensures var src := Join(env.cfg.temporary, OrEmpty(s.originalName));
            var dst := Join(env.cfg.temporary, token);
            var copied := s.files[dst := s.files[src]];
            var last := LastImage(GetProfiles(s.profiles, env.cfg.profiles), Names(env, s));
            ProcessFileStep(env, s, token) ==
              (s.(files := Final(env.engine, copied, last, src, dst),
                  editedName := Some(token), useProfiles := [], editedFile := None), None)
  {
    var src := Join(env.cfg.temporary, OrEmpty(s.originalName));
    var dst := Join(env.cfg.temporary, token);
    var copied := s.files[dst := s.files[src]];
    LastImageWins(env.engine, copied, GetProfiles(s.profiles, env.cfg.profiles), Names(env, s), src, dst);
  }

  /** `save` returns the filename exactly when the final copy succeeds: a
      returned name is the first free candidate for the files after
      processing, and the destination then holds what the commit source held. */
  lemma SaveReturnsName(env: Env, s: Session, suffix: Option<string>, date: Date,
                        t1: string, t2: string, digits: seq<Digit>, f: string)
    ensures var pr := Prepared(env, s, t1, t2);
            var job := SessionJob(env, suffix, date);
            SaveStep(env, s, suffix, date, t1, t2, digits).1 == Success(Some(f)) <==>
              && pr.1.None?
              && FirstFreeAt(pr.0.files, job, digits, Index(pr.0.files, job, digits, 0), f)
              && Contains(job.structure, "{name}")
              && EditedPath(env, pr.0) in pr.0.files && Destination(env.cfg.location, f) !in env.unwritable
    ensures var pr := Prepared(env, s, t1, t2);
            var out := SaveStep(env, s, suffix, date, t1, t2, digits);
            out.1 == Success(Some(f)) ==>
              out.0.files == pr.0.files[Destination(env.cfg.location, f) := pr.0.files[EditedPath(env, pr.0)]]
  {
    var pr := Prepared(env, s, t1, t2);
    var job := SessionJob(env, suffix, date);
    AllocationFirstFree(pr.0.files, job, digits);
    if pr.1.None? && Contains(job.structure, "{name}") && FirstFreeAt(pr.0.files, job, digits, Index(pr.0.files, job, digits, 0), f) {
      AllocationReturnsFirstFree(pr.0.files, job, digits, Index(pr.0.files, job, digits, 0), f);
    }
  }

  /** Distinct tokens name distinct temporary files. */
  lemma JoinDistinct(dir: string, t1: string, t2: string)
    requires t1 != t2
    ensures Join(dir, t1) != Join(dir, t2)
  {
    assert Join(dir, t1)[|dir| + 1..] == t1;
    assert Join(dir, t2)[|dir| + 1..] == t2;
  }

  /** The content the edited copy ends with: the last image profile run on
      the uploaded content, or that content itself when there is no image
      profile or it cannot be read as an image. */
  function EditedContent(e: Engine, last: Option<Profile>, upload: Content): Content
  {
    if last.Some? && e.readable(upload) then ApplySteps(e, last.value, upload) else upload
  }

  /** Staging and processing leave the uploaded content, edited by the
      profiles, at the edited copy's path, which is the final copy's source. */
  lemma PreparedHoldsEditedUpload(env: Env, s: Session, t1: string, t2: string)
    requires RootPath(env.cfg.disk).Success? && s.inbound.Some?
    requires t1 != t2
    requires Join(env.cfg.temporary, t1) !in env.unwritable && Join(env.cfg.temporary, t2) !in env.unwritable
    requires Names(env, s) != []
    requires forall i :: 0 <= i < |Names(env, s)| ==> Names(env, s)[i] in Keys(GetProfiles(s.profiles, env.cfg.profiles))
    ensures var pr := Prepared(env, s, t1, t2);
            var last := LastImage(GetProfiles(s.profiles, env.cfg.profiles), Names(env, s));
            && pr.1.None?
            && EditedPath(env, pr.0) in pr.0.files
            && pr.0.files[EditedPath(env, pr.0)] == EditedContent(env.engine, last, s.inbound.value)
  {
    var src := Join(env.cfg.temporary, t1);
    var dst := Join(env.cfg.temporary, t2);
    JoinDistinct(env.cfg.temporary, t2, t1);
    MakeTemporaryOutcome(env, s, true, t1);
    var staged := MakeTemporary(env, s, true, t1);
    var s1 := staged.0.(originalFile := Some(staged.1.value));
    assert Names(env, s1) == Names(env, s);
    ProcessFileEdits(env, s1, t2);
    var copied := s1.files[dst := s1.files[src]];
    assert copied[src] == s.inbound.value;
  }

  /** What a successful `save` stores, in terms of the upload: the result of
      the last image profile among the names run on the uploaded content,
      or the uploaded content itself when no profile is an image profile or
      the image cannot be read. */
  lemma SaveStoresProcessedUpload(env: Env, s: Session, suffix: Option<string>, date: Date,
                                  t1: string, t2: string, digits: seq<Digit>, f: string)
    requires RootPath(env.cfg.disk).Success? && s.inbound.Some?
    requires t1 != t2
    requires Join(env.cfg.temporary, t1) !in env.unwritable && Join(env.cfg.temporary, t2) !in env.unwritable
    requires Names(env, s) != []
    requires forall i :: 0 <= i < |Names(env, s)| ==> Names(env, s)[i] in Keys(GetProfiles(s.profiles, env.cfg.profiles))
    requires SaveStep(env, s, suffix, date, t1, t2, digits).1 == Success(Some(f))
    ensures var last := LastImage(GetProfiles(s.profiles, env.cfg.profiles), Names(env, s));
            SaveStep(env, s, suffix, date, t1, t2, digits).0.files[Destination(env.cfg.location, f)]
              == EditedContent(env.engine, last, s.inbound.value)
  {
    PreparedHoldsEditedUpload(env, s, t1, t2);
    SaveReturnsName(env, s, suffix, date, t1, t2, digits, f);
  }

  /** `save` returns `null` exactly when naming succeeded and the final copy
      failed. */
  lemma SaveNullIff(env: Env, s: Session, suffix: Option<string>, date: Date,
                    t1: string, t2: string, digits: seq<Digit>)
    ensures var pr := Prepared(env, s, t1, t2);
            var a := Allocation(pr.0.files, SessionJob(env, suffix, date), digits);
            SaveStep(env, s, suffix, date, t1, t2, digits).1 == Success(None) <==>
              pr.1.None? && a.Success?
              && (EditedPath(env, pr.0) !in pr.0.files || Destination(env.cfg.location, a.value) in env.unwritable)
  {
  }

  /** The incoming file can be moved only once: after a save whose staging
      succeeded, whatever happened after it, a second save fails staging. */
  lemma SecondSaveFails(env: Env, s: Session, suffix: Option<string>, date: Date,
                        t1: string, t2: string, digits: seq<Digit>,
                        suffix': Option<string>, date': Date, t1': string, t2': string, digits': seq<Digit>)
    requires MakeTemporary(env, s, true, t1).1.Success?
    ensures SaveStep(env, SaveStep(env, s, suffix, date, t1, t2, digits).0, suffix', date', t1', t2', digits').1
         == Failure(StagingFailed)
  {
    var pr := Prepared(env, s, t1, t2);
    var staged := MakeTemporary(env, s, true, t1);
    assert staged.0.inbound.None?;
    var s2 := staged.0.(originalFile := Some(staged.1.value));
    assert pr == ProcessFileStep(env, s2, t2);
    var out := SaveStep(env, s, suffix, date, t1, t2, digits);
    assert out.0.inbound.None?;
    assert MakeTemporary(env, out.0, true, t1').1 == Failure(StagingFailed);
  }

  /** `save` never touches the memoised profiles: an `editing` profile built
      by chained calls is still there, with all its operations, for the next
      save of the same session. */
  lemma SaveKeepsProfiles(env: Env, s: Session, suffix: Option<string>, date: Date,
                          t1: string, t2: string, digits: seq<Digit>)
    ensures SaveStep(env, s, suffix, date, t1, t2, digits).0.profiles == s.profiles
  {
  }

  /** As the code is written, the final copy reads
      `"{$temp}/{$this->temporaryEditedName}"` even when no edited copy was
      made. On a fresh session with no profiles to run, that is the path
      `"{$temp}/"`, so unless such a file exists the upload is never stored
      and `save` returns `null` (or an exception). */
  lemma FreshSaveWithoutProfilesStoresNothing(env: Env, s: Session, suffix: Option<string>, date: Date,
                                             t1: string, t2: string, digits: seq<Digit>)
    requires s.editedName.None? && t1 != ""
    requires Names(env, s.(originalName := Some(t1))) == []
    requires Join(env.cfg.temporary, "") !in s.files
    ensures SaveStep(env, s, suffix, date, t1, t2, digits).1.Success? ==>
              SaveStep(env, s, suffix, date, t1, t2, digits).1.value.None?
  {
    var staged := MakeTemporary(env, s, true, t1);
    if staged.1.Success? {
      var s2 := staged.0.(originalFile := Some(staged.1.value));
      assert Names(env, s2) == [];
      NoProfilesNoCopy(env, s2, t2);
      assert Join(env.cfg.temporary, t1) != Join(env.cfg.temporary, "") by {
        assert |Join(env.cfg.temporary, t1)| != |Join(env.cfg.temporary, "")|;
      }
      assert EditedPath(env, s2) !in s2.files;
    }
  }

  // ---------------------------------------------------------------------
  // The class

  class UploadedFile {
    const cfg: Settings
    const engine: Engine
    const clientName: string
    const clientExt: string
    const disk: Disk
    var inbound: Option<Content>
    var useProfiles: seq<string>
    var profiles: ProfileMap
    var temporaryOriginalFile: Option<string>
    var temporaryOriginalName: Option<string>
    var temporaryEditedFile: Option<string>
    var temporaryEditedName: Option<string>

    /** The unchanging inputs of this session. */
    function Context(): Env
    {
      Env(cfg, engine, clientName, clientExt, disk.unwritable)
    }

    /** The session's fields and the disk's files. */
    function State(): Session
      reads this, disk
    {
      Session(disk.files, inbound, useProfiles, profiles, temporaryOriginalFile, temporaryOriginalName,
              temporaryEditedFile, temporaryEditedName)
    }

    /** A session for an incoming file with the given content; `profiles`
        starts as `null`, which reads like the empty array. */
    constructor (cfg: Settings, engine: Engine, clientName: string, clientExt: string, disk: Disk, upload: Content)
      ensures this.cfg == cfg && this.engine == engine && this.clientName == clientName
      ensures this.clientExt == clientExt && this.disk == disk
      ensures State() == Session(disk.files, Some(upload), [], [], None, None, None, None)
    {
      this.cfg := cfg;
      this.engine := engine;
      this.clientName := clientName;
      this.clientExt := clientExt;
      this.disk := disk;
      inbound := Some(upload);
      useProfiles := [];
      profiles := [];
      temporaryOriginalFile := None;
      temporaryOriginalName := None;
      temporaryEditedFile := None;
      temporaryEditedName := None;
    }

    /** `profile($name)`: queue one more profile name, nothing else. */
    method Profile(name: string)
      modifies this`useProfiles
      ensures State() == old(State()).(useProfiles := old(useProfiles) + [name])
    {
      useProfiles := useProfiles + [name];
    }

    /** `__call($name, $arguments)`: memoise the profiles, set the operation
        on the editing profile and queue `editing` once more. */
    method Call(op: string, args: seq<Value>)
      modifies this`profiles, this`useProfiles
      ensures profiles == WithEditing(GetProfiles(old(profiles), cfg.profiles), op, args)
      ensures useProfiles == old(useProfiles) + ["editing"]
      ensures State() == old(State()).(profiles := profiles, useProfiles := useProfiles)
    {
      profiles := GetProfiles(profiles, cfg.profiles);
      var profile := EditingBase(profiles);
      profile := Put(profile, op, Params(args));
      profiles := Put(profiles, "editing", profile);
      useProfiles := useProfiles + ["editing"];
    }

    /** `getDefaultImageProfiles`. */
    method DefaultImageProfiles() returns (r: ProfileMap)
      ensures r == Selection(GetProfiles(profiles, cfg.profiles), Some(cfg.defaults))
    {
      r := SelectProfiles(GetProfiles(profiles, cfg.profiles), Some(cfg.defaults));
    }

    /** `makeTemporaryFile($original)` with random name `token`. The root is
        only looked up (and may throw); `makeDirectory` has no effect on a
        map of paths. */
    method MakeTemporaryFile(original: bool, token: string) returns (r: Result<string, Error>)
      modifies this, disk`files
      ensures (State(), r) == MakeTemporary(Context(), old(State()), original, token)
    {
      var root := RootPath(cfg.disk);
      if root.Failure? {
        return Failure(root.error);
      }
      var temp := cfg.temporary;
      var name := token;
      if original {
        temporaryOriginalName := Some(name);
        if inbound.None? {
          return Failure(StagingFailed);
        }
        var ok := disk.Receive(Join(temp, name), inbound.value);
        if !ok {
          return Failure(StagingFailed);
        }
        inbound := None;
        return Success(Join(temp, name));
      }
      var src := Join(temp, OrEmpty(temporaryOriginalName));
      var ok := disk.Copy(src, Join(temp, name));
      if !ok {
        return Failure(EditingCopyFailed(src));
      }
      temporaryEditedName := Some(name);
      return Success(src);
    }

    /** `processImage($profile)`: `saved` is false for `NotReadableException`.
        The root it looks up again cannot fail here, since staging already
        looked it up in the same configuration. */
    method ProcessImage(profile: Profile) returns (saved: bool)
      requires temporaryEditedFile.Some?
      modifies disk`files
      ensures var src := temporaryEditedFile.value;
              saved <==> src in old(disk.files) && engine.readable(old(disk.files)[src])
      ensures disk.files == ImageStep(engine, old(disk.files), profile, temporaryEditedFile.value,
                                      Join(cfg.temporary, OrEmpty(temporaryEditedName)))
    {
      var path := temporaryEditedFile.value;
      if path !in disk.files || !engine.readable(disk.files[path]) {
        return false;
      }
      var image := RunSteps(engine, profile, disk.files[path]);
      disk.Write(Join(cfg.temporary, OrEmpty(temporaryEditedName)), image);
      return true;
    }

    /** `processFile` with random name `token` for the edited copy. */
    method ProcessFile(token: string) returns (err: Option<Error>)
      modifies this, disk`files
      ensures (State(), err) == ProcessFileStep(Context(), old(State()), token)
    {
      var names := useProfiles;
      if names == [] {
        var defaults := DefaultImageProfiles();
        names := Keys(defaults);
      }
      if names == [] {
        return None;
      }
      var made := MakeTemporaryFile(false, token);
      if made.Failure? {
        return Some(made.error);
      }
      temporaryEditedFile := Some(made.value);
      var ps := GetProfiles(profiles, cfg.profiles);
      err := RunNames(names, ps);
      if err.Some? {
        return err;
      }
      useProfiles := [];
      temporaryEditedFile := None;
      return None;
    }

    /** The `foreach ($profiles as $name)` loop of `processFile`, over the
        profile map `ps` that `getProfile` reads. */
    method RunNames(names: seq<string>, ps: ProfileMap) returns (err: Option<Error>)
      requires temporaryEditedFile.Some?
      modifies disk`files
      ensures Run(disk.files, err)
           == ProcessNames(engine, old(disk.files), ps, names, temporaryEditedFile.value,
                           Join(cfg.temporary, OrEmpty(temporaryEditedName)))
    {
      var src, dst := temporaryEditedFile.value, Join(cfg.temporary, OrEmpty(temporaryEditedName));
      var i := 0;
      while i < |names|
        invariant i <= |names|
        invariant ProcessNames(engine, old(disk.files), ps, names, src, dst)
               == ProcessNames(engine, disk.files, ps, names[i..], src, dst)
      {
        assert names[i..][1..] == names[i + 1..];
        var p := GetProfile(ps, names[i]);
        if p.Failure? {
          return Some(p.error);
        }
        if IsImage(p.value) {
          var _ := ProcessImage(p.value);
        }
        i := i + 1;
      }
      return None;
    }

    /** `moveUploadedFile($filename)`: copy the edited temporary file to the
        destination; `makeDirectory` has no effect on a map of paths. */
    method MoveUploadedFile(filename: string) returns (ok: bool)
      modifies disk`files
      ensures ok <==> EditedPath(Context(), old(State())) in old(disk.files)
                      && Destination(cfg.location, filename) !in disk.unwritable
      ensures disk.files == if ok then old(disk.files)[Destination(cfg.location, filename) := old(disk.files)[EditedPath(Context(), old(State()))]]
                            else old(disk.files)
    {
      var parts := ExtractPath(filename);
      var directory, name := parts.0, parts.1;
      ok := disk.Copy(Join(cfg.temporary, OrEmpty(temporaryEditedName)), Join(Join(cfg.location, directory), name));
    }

    /** `save($suffix)`, with the random names of the two temporary files,
        the current date and the digits `mt_rand` will draw as inputs. */
    method Save(suffix: Option<string>, date: Date, originalToken: string, editedToken: string, digits: seq<Digit>)
      returns (r: Result<Option<string>, Error>)
      modifies this, disk`files
      ensures (State(), r) == SaveStep(Context(), old(State()), suffix, date, originalToken, editedToken, digits)
    {
      var staged := MakeTemporaryFile(true, originalToken);
      if staged.Failure? {
        return Failure(staged.error);
      }
      temporaryOriginalFile := Some(staged.value);
      var err := ProcessFile(editedToken);
      if err.Some? {
        return Failure(err.value);
      }
      var filename := Allocate(disk, SessionJob(Context(), suffix, date), digits);
      if filename.Failure? {
        return Failure(filename.error);
      }
      var ok := MoveUploadedFile(filename.value);
      return Success(if ok then Some(filename.value) else None);
    }

    /** `__destruct` / `deleteTemporaryFiles`: one `deleteDirectory` of the
        configured temporary directory. */
    method Dispose()
      modifies disk`files, disk`deletions
      ensures disk.files == map p | p in old(disk.files) && !Under(p, cfg.temporary) :: old(disk.files)[p]
      ensures disk.deletions == old(disk.deletions) + 1
    {
      var directory := cfg.temporary;
      disk.DeleteDirectory(directory);
    }
  }
}
