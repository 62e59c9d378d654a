/** The filesystem both pipelines talk to, as a map from root-relative path
    to content. A write to a path in `unwritable` fails (a full disk, a
    missing permission). Directories are implicit in the paths. */
module Storage {
  import opened Types

  /** `p` is the directory `dir` itself or lies somewhere below it. */
  predicate Under(p: string, dir: string)
  {
    p == dir || (|dir| + 1 <= |p| && p[..|dir| + 1] == dir + "/")
  }

  class Disk {
    var files: map<string, Content>
    const unwritable: set<string>
    /** How many times `deleteDirectory` has been called. */
    ghost var deletions: nat

    constructor (files: map<string, Content>, unwritable: set<string>)
      ensures this.files == files && this.unwritable == unwritable && deletions == 0
    {
      this.files := files;
      this.unwritable := unwritable;
      deletions := 0;
    }

    /** `exists($path)`. */
    predicate Exists(path: string)
      reads this
    {
      path in files
    }

    /** `copy($src, $dst)`: false when the source is missing or the
      destination cannot be written; an existing destination is overwritten. */
    method Copy(src: string, dst: string) returns (ok: bool)
      modifies this`files
      ensures ok <==> src in old(files) && dst !in unwritable
      ensures files == if ok then old(files)[dst := old(files)[src]] else old(files)
    {
      ok := src in files && dst !in unwritable;
      if ok {
        files := files[dst := files[src]];
      }
    }

    /** Moves content that lives outside this namespace (a PHP upload) to `dst`. */
    method Receive(dst: string, content: Content) returns (ok: bool)
      modifies this`files
      ensures ok <==> dst !in unwritable
      ensures files == if ok then old(files)[dst := content] else old(files)
    {
      ok := dst !in unwritable;
      if ok {
        files := files[dst := content];
      }
    }

    /** An encoder saving an image to `path`. */
    method Write(path: string, content: Content)
      modifies this`files
      ensures files == old(files)[path := content]
    {
      files := files[path := content];
    }

    /** `deleteDirectory($dir)`: removes the directory and everything below it. */
    method DeleteDirectory(dir: string)
      modifies this`files, this`deletions
      ensures files == map p | p in old(files) && !Under(p, dir) :: old(files)[p]
      ensures deletions == old(deletions) + 1
    {
      files := map p | p in files && !Under(p, dir) :: files[p];
      deletions := deletions + 1;
    }
  }
}
