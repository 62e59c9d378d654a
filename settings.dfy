/** The configuration both pipelines read (`drive.*` and the default
    filesystem disk), and the naming job it defines for one upload. */
module Settings {
  import opened Types
  import opened Paths
  import opened Profiles
  import opened Naming

  /** `drive.location`, `drive.temporary`, `drive.structure`,
      `drive.profiles`, `drive.default_profiles.image` (missing reads as
      `[]`) and `filesystems.disks.{default}`. */
  datatype Settings = Settings(
    location: string,
    temporary: string,
    structure: string,
    profiles: ProfileMap,
    defaults: seq<string>,
    disk: DiskConfig)

  /** The allocation job for a client file `clientName` with extension
      `clientExt`, an optional caller suffix and the current date. */
  function JobFor(cfg: Settings, clientName: string, clientExt: string, suffix: Option<string>, date: Date): (j: Job)
    ensures j.location == cfg.location && j.structure == cfg.structure && j.ext == clientExt
    ensures |clientExt| + 1 <= |clientName| ==>
              j.base == clientName[..|clientName| - |clientExt| - 1] + OrEmpty(suffix)
  {
    Job(cfg.location, cfg.structure, date, BaseName(clientName, clientExt, suffix), clientExt)
  }
}
