/** The one-shot pipeline (`Drive::store`): take the uploaded file of a
    request field, validate it, run every image profile on it in place,
    allocate a name without a caller suffix and move the file there. */
module Drive {
  import opened Types
  import opened PhpArray
  import opened PhpString
  import opened Paths
  import opened Storage
  import opened Naming
  import opened Profiles
  import opened Transform
  import opened Settings

  /** An uploaded file of the request: the client's file name and extension
      and the content in PHP's upload directory. */
  datatype Incoming = Incoming(clientName: string, clientExt: string, content: Content)

  /** What `store` reads and never changes: the configuration, the image
      library, the request's files by field, the validator's verdict on the
      configured rules, and the paths the disk refuses to write. */
  datatype Context = Context(
    cfg: Settings,
    engine: Engine,
    request: map<string, Incoming>,
    valid: Incoming -> bool,
    unwritable: set<string>)

  /** `getImageProfiles`: every image profile without its `type`. The
      object's own profile array is never assigned, so `getProfiles`
      always falls through to the configuration. */
  function ImageProfiles(cfg: Settings): ProfileMap
  {
    Selection(GetProfiles([], cfg.profiles), None)
  }

  /** `processImage`: the content after `$image->save()` in place, or the
      content unchanged when it cannot be read as an image. */
  function Processed(ctx: Context, c: Content): Content
  {
    if ctx.engine.readable(c) then ApplyProfiles(ctx.engine, ImageProfiles(ctx.cfg), c) else c
  }

  /** The naming job of an uploaded file: no caller suffix. */
  function StoreJob(cfg: Settings, u: Incoming, date: Date): Job
  {
    JobFor(cfg, u.clientName, u.clientExt, None, date)
  }

  /** `store($field)`: the files afterwards and the relative file name, or
      the exception that stopped it. */
  function StoreStep(ctx: Context, files: map<string, Content>, field: string, date: Date, digits: seq<Digit>)
    : (map<string, Content>, Result<string, Error>)
  {
    if field !in ctx.request then (files, Failure(MissingUpload(field)))
    else
      var u := ctx.request[field];
      if !ctx.valid(u) then (files, Failure(ValidationFailed))
      else
        var c := Processed(ctx, u.content);
        match Allocation(files, StoreJob(ctx.cfg, u, date), digits)
        case Failure(err) => (files, Failure(err))
        case Success(f) =>
          if RootPath(ctx.cfg.disk).Failure? then (files, Failure(RootPath(ctx.cfg.disk).error))
          else if Destination(ctx.cfg.location, f) in ctx.unwritable then (files, Failure(MoveFailed))
          else (files[Destination(ctx.cfg.location, f) := c], Success(f))
  }

  /** A missing field is reported before the validator is consulted: the
      outcome does not depend on the validator at all. */
  lemma MissingFieldFirst(ctx: Context, files: map<string, Content>, field: string, date: Date, digits: seq<Digit>,
                          other: Incoming -> bool)
    requires field !in ctx.request
    ensures StoreStep(ctx, files, field, date, digits) == (files, Failure(MissingUpload(field)))
    ensures StoreStep(ctx.(valid := other), files, field, date, digits) == (files, Failure(MissingUpload(field)))
  {
  }

  /** A failed validation stops everything: no file is written, whatever
      the profiles, the template or the disk. */
  lemma InvalidStoresNothing(ctx: Context, files: map<string, Content>, field: string, date: Date, digits: seq<Digit>)
    requires field in ctx.request && !ctx.valid(ctx.request[field])
    ensures StoreStep(ctx, files, field, date, digits) == (files, Failure(ValidationFailed))
  {
  }

  /** `store` returns a name exactly when the upload is valid, naming
      succeeds, the driver is supported and the move succeeds; the name is
      the first free candidate (no suffix), and the processed file is then
      the only change, at `location/dir/name`. */
  lemma StoreReturnsName(ctx: Context, files: map<string, Content>, field: string, date: Date, digits: seq<Digit>, f: string)
    ensures var out := StoreStep(ctx, files, field, date, digits);
            out.1 == Success(f) <==>
              && field in ctx.request && ctx.valid(ctx.request[field])
              && Contains(ctx.cfg.structure, "{name}")
              && FirstFreeAt(files, StoreJob(ctx.cfg, ctx.request[field], date), digits,
                             Index(files, StoreJob(ctx.cfg, ctx.request[field], date), digits, 0), f)
              && RootPath(ctx.cfg.disk).Success?
              && Destination(ctx.cfg.location, f) !in ctx.unwritable
    ensures var out := StoreStep(ctx, files, field, date, digits);
            out.1 == Success(f) ==>
              out.0 == files[Destination(ctx.cfg.location, f) := Processed(ctx, ctx.request[field].content)]
    ensures var out := StoreStep(ctx, files, field, date, digits);
            out.1.Failure? ==> out.0 == files
  {
    if field in ctx.request {
      var job := StoreJob(ctx.cfg, ctx.request[field], date);
      assert job.structure == ctx.cfg.structure;
      AllocationFirstFree(files, job, digits);
      if Contains(ctx.cfg.structure, "{name}") && FirstFreeAt(files, job, digits, Index(files, job, digits, 0), f) {
        AllocationReturnsFirstFree(files, job, digits, Index(files, job, digits, 0), f);
      }
    }
  }

  /** For a single image profile, the one-shot pipeline (remove `type`, run
      the rest) edits an image exactly as the session pipeline does (run
      the profile, skipping `type`). */
  lemma OneShotMatchesSession(e: Engine, name: string, p: Profile, c: Content)
    requires IsImage(p)
    ensures ApplyProfiles(e, Selection([(name, p)], None), c) == ApplySteps(e, p, c)
  {
    var ps := [(name, p)];
    assert ps[..0] == [];
    assert Selection(ps, None) == [(name, Remove(p, "type"))];
    SkipTypeIsRemove(e, p, c);
  }

  class Drive {
    const cfg: Settings
    const engine: Engine
    const request: map<string, Incoming>
    const valid: Incoming -> bool
    const disk: Disk

    constructor (cfg: Settings, engine: Engine, request: map<string, Incoming>, valid: Incoming -> bool, disk: Disk)
      ensures this.cfg == cfg && this.engine == engine && this.request == request
      ensures this.valid == valid && this.disk == disk
    {
      this.cfg := cfg;
      this.engine := engine;
      this.request := request;
      this.valid := valid;
      this.disk := disk;
    }

    function Ctx(): Context
    {
      Context(cfg, engine, request, valid, disk.unwritable)
    }

    /** `processImage($file)`: open the upload, run every image profile on
        the one handle, save in place. */
    method ProcessImage(u: Incoming) returns (c: Content)
      ensures c == Processed(Ctx(), u.content)
    {
      if !engine.readable(u.content) {
        return u.content;
      }
      var profiles := SelectProfiles(GetProfiles([], cfg.profiles), None);
      c := RunProfiles(engine, profiles, u.content);
    }

    /** `moveUploadedFile($file, $filename)`: Symfony's move to
        `root/location/dir` under the base name; a refused write throws. */
    method MoveUploadedFile(content: Content, filename: string) returns (err: Option<Error>)
      modifies disk`files
      ensures RootPath(cfg.disk).Failure? ==> err == Some(UnsupportedDriver) && disk.files == old(disk.files)
      ensures RootPath(cfg.disk).Success? ==>
                (err.None? <==> Destination(cfg.location, filename) !in disk.unwritable)
      ensures RootPath(cfg.disk).Success? && err.Some? ==> err == Some(MoveFailed) && disk.files == old(disk.files)
      ensures err.None? ==> disk.files == old(disk.files)[Destination(cfg.location, filename) := content]
    {
      var root := RootPath(cfg.disk);
      if root.Failure? {
        return Some(root.error);
      }
      var parts := ExtractPath(filename);
      var directory, name := parts.0, parts.1;
      var ok := disk.Receive(Join(Join(cfg.location, directory), name), content);
      err := if ok then None else Some(MoveFailed);
    }

    /** `store($field)`, with the current date and the digits `mt_rand`
        will draw as inputs. */
    method Store(field: string, date: Date, digits: seq<Digit>) returns (r: Result<string, Error>)
      modifies disk`files
      ensures (disk.files, r) == StoreStep(Ctx(), old(disk.files), field, date, digits)
    {
      if field !in request {
        return Failure(MissingUpload(field));
      }
      var file := request[field];
      if !valid(file) {
        return Failure(ValidationFailed);
      }
      var content := ProcessImage(file);
      var filename := Allocate(disk, StoreJob(cfg, file, date), digits);
      if filename.Failure? {
        return Failure(filename.error);
      }
      var err := MoveUploadedFile(content, filename.value);
      if err.Some? {
        return Failure(err.value);
      }
      return Success(filename.value);
    }
  }
}
