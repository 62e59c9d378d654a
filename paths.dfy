/** Path helpers shared by both pipelines: splitting a relative file name
    into directory and base name, and choosing the storage root from the
    configured disk. */
module Paths {
  import opened Types

  /** One entry of `filesystems.disks`; a key the array lacks reads as "". */
  datatype DiskConfig = DiskConfig(driver: string, root: string, bucket: string, container: string)

  /** `getRootPath`: the local root directory, the S3 bucket or the
      Rackspace container, depending on the driver; any other driver throws. */
  function RootPath(disk: DiskConfig): (r: Result<string, Error>)
    ensures r.Failure? <==> disk.driver !in {"local", "s3", "rackspace"}
    ensures r.Failure? ==> r.error == UnsupportedDriver
    ensures disk.driver == "local" ==> r == Success(disk.root)
    ensures disk.driver == "s3" ==> r == Success(disk.bucket)
    ensures disk.driver == "rackspace" ==> r == Success(disk.container)
  {
    match disk.driver
    case "local" => Success(disk.root)
    case "s3" => Success(disk.bucket)
    case "rackspace" => Success(disk.container)
    case _ => Failure(UnsupportedDriver)
  }

  /** The index of the last `/` in a path that has one. */
  function LastSlash(p: string): (i: nat)
    requires '/' in p
    ensures i < |p| && p[i] == '/'
    ensures forall j :: i < j < |p| ==> p[j] != '/'
  {
    if p[|p| - 1] == '/' then |p| - 1
    else
      assert '/' in p[..|p| - 1] by {
        var k :| 0 <= k < |p| && p[k] == '/';
        assert p[..|p| - 1][k] == '/';
      }
      LastSlash(p[..|p| - 1])
  }

  /** `extractPath`: `explode('/')`, pop the last segment as the name, and
      `implode('/')` the rest as the directory. */
  function ExtractPath(p: string): (r: (string, string))
    ensures '/' !in r.1
    ensures '/' in p ==> r.0 + "/" + r.1 == p
    ensures '/' !in p ==> r == ("", p)
  {
    if '/' in p then
      var i := LastSlash(p);
      var name := p[i + 1..];
      assert '/' !in name by {
        forall j | 0 <= j < |name| ensures name[j] != '/' {
          assert name[j] == p[i + 1 + j];
        }
      }
      assert p[..i] + "/" + p[i + 1..] == p;
      (p[..i], p[i + 1..])
    else ("", p)
  }

  /** `"{$a}/{$b}"`. */
  function Join(a: string, b: string): string
  {
    a + "/" + b
  }

  /** `"{$location}/{$directory}/{$name}"` for a file name allocated under
      `location`, split by `extractPath`. */
  function Destination(location: string, filename: string): (r: string)
    ensures '/' in filename ==> r == Join(location, filename)
  {
    var parts := ExtractPath(filename);
    Join(Join(location, parts.0), parts.1)
  }
}
