/** Running profiles on an image. The image library is uninterpreted: an
    operation maps the current image and the operation's arguments to a new
    image, and `readable` says whether a file's content can be opened as an
    image at all (its failure is `NotReadableException`). */
module Transform {
  import opened Types
  import opened PhpArray
  import opened Profiles

  datatype Engine = Engine(apply: (string, Entry, Content) -> Content, readable: Content -> bool)

  /** `foreach ($profile as $method => $parameters)`, skipping `type`, with
      `$image = call_user_func_array([$image, $method], $parameters)`. */
  function ApplySteps(e: Engine, p: Profile, c: Content): Content
  {
    if p == [] then c
    else ApplySteps(e, p[1..], if p[0].0 == "type" then c else e.apply(p[0].0, p[0].1, c))
  }

  /** The same fold without the `type` test, as the older pipeline runs it
      on profiles whose `type` was already removed. */
  function ApplyAll(e: Engine, p: Profile, c: Content): Content
  {
    if p == [] then c else ApplyAll(e, p[1..], e.apply(p[0].0, p[0].1, c))
  }

  /** Every profile in turn, on the one image handle. */
  function ApplyProfiles(e: Engine, ps: ProfileMap, c: Content): Content
  {
    if ps == [] then c else ApplyProfiles(e, ps[1..], ApplyAll(e, ps[0].1, c))
  }

  /** The loop of `UploadedFile::processImage`. */
  method RunSteps(e: Engine, p: Profile, c: Content) returns (image: Content)
    ensures image == ApplySteps(e, p, c)
  {
    image := c;
    var i := 0;
    while i < |p|
      invariant i <= |p|
      invariant ApplySteps(e, p, c) == ApplySteps(e, p[i..], image)
    {
      assert p[i..][1..] == p[i + 1..];
      var op, parameters := p[i].0, p[i].1;
      if op != "type" {
        image := e.apply(op, parameters, image);
      }
      i := i + 1;
    }
  }

  /** The nested loops of `Drive::processImage`. */
  method RunProfiles(e: Engine, ps: ProfileMap, c: Content) returns (image: Content)
    ensures image == ApplyProfiles(e, ps, c)
  {
    image := c;
    var i := 0;
    while i < |ps|
      invariant i <= |ps|
      invariant ApplyProfiles(e, ps, c) == ApplyProfiles(e, ps[i..], image)
    {
      assert ps[i..][1..] == ps[i + 1..];
      var profile := ps[i].1;
      var before := image;
      var j := 0;
      while j < |profile|
        invariant j <= |profile|
        invariant ApplyAll(e, profile, before) == ApplyAll(e, profile[j..], image)
      {
        assert profile[j..][1..] == profile[j + 1..];
        image := e.apply(profile[j].0, profile[j].1, image);
        j := j + 1;
      }
      i := i + 1;
    }
  }

  /** Running a profile in two parts is running it in one. */
  lemma {:induction false} ApplyStepsAppend(e: Engine, p: Profile, q: Profile, c: Content)
    ensures ApplySteps(e, p + q, c) == ApplySteps(e, q, ApplySteps(e, p, c))
  {
    if p == [] {
      assert p + q == q;
    } else {
      assert (p + q)[1..] == p[1..] + q;
      ApplyStepsAppend(e, p[1..], q, if p[0].0 == "type" then c else e.apply(p[0].0, p[0].1, c));
    }
  }

  /** Removing `type` first and running everything is the same as skipping
      `type` on the way: the two pipelines run an image profile alike. */
  lemma {:induction false} SkipTypeIsRemove(e: Engine, p: Profile, c: Content)
    ensures ApplyAll(e, Remove(p, "type"), c) == ApplySteps(e, p, c)
  {
    if p != [] {
      if p[0].0 == "type" {
        SkipTypeIsRemove(e, p[1..], c);
      } else {
        SkipTypeIsRemove(e, p[1..], e.apply(p[0].0, p[0].1, c));
        assert ([p[0]] + Remove(p[1..], "type"))[1..] == Remove(p[1..], "type");
      }
    }
  }

  /** A profile without a `type` entry is run in full. */
  lemma {:induction false} NoTypeRunsAll(e: Engine, p: Profile, c: Content)
    requires "type" !in Keys(p)
    ensures ApplySteps(e, p, c) == ApplyAll(e, p, c)
  {
    if p != [] {
      assert Keys(p) == [p[0].0] + Keys(p[1..]);
      NoTypeRunsAll(e, p[1..], e.apply(p[0].0, p[0].1, c));
    }
  }

  /** Profiles run one after another compose. */
  lemma {:induction false} ApplyProfilesAppend(e: Engine, ps: ProfileMap, qs: ProfileMap, c: Content)
    ensures ApplyProfiles(e, ps + qs, c) == ApplyProfiles(e, qs, ApplyProfiles(e, ps, c))
  {
    if ps == [] {
      assert ps + qs == qs;
    } else {
      assert (ps + qs)[1..] == ps[1..] + qs;
      ApplyProfilesAppend(e, ps[1..], qs, ApplyAll(e, ps[0].1, c));
    }
  }
}
