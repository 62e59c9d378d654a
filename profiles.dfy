/** Processing profiles: a profile is an ordered map from an operation name
    to its argument list, with a `type` entry saying what kind of file it
    applies to; the profiles themselves are an ordered map from profile
    name to profile. */
module Profiles {
  import opened Types
  import opened PhpArray

  type Profile = OrderedMap<Entry>
  type ProfileMap = OrderedMap<Profile>

  /** `$profile['type'] == 'image'`; a profile without a `type` entry reads
      `null`, which is not `'image'`. */
  predicate IsImage(p: Profile)
  {
    Lookup(p, "type") == Some(Text("image"))
  }

  /** `getProfiles`: the profiles memoised on the object when that array is
      truthy (non-empty), otherwise the configured ones; a missing
      configuration reads as the empty array. */
  function GetProfiles(own: ProfileMap, configured: ProfileMap): ProfileMap
  {
    if own != [] then own else configured
  }

  /** `getProfile`: the profile stored under `name`, or the
      `InvalidArgumentException` for a name that is not there. */
  function GetProfile(ps: ProfileMap, name: string): (r: Result<Profile, Error>)
    ensures r.Success? <==> name in Keys(ps)
    ensures r.Success? ==> (name, r.value) in ps
    ensures r.Failure? ==> r.error == UnknownProfile(name)
  {
    match Lookup(ps, name)
    case Some(p) => Success(p)
    case None => Failure(UnknownProfile(name))
  }

  /** Whether the selection loop keeps the profile `name`: it must be an
      image profile and, when a defaults list is given, be named in it
      (`in_array($name, $defaults)`). `None` stands for the older
      pipeline, which has no defaults filter. */
  predicate Chosen(name: string, p: Profile, defaults: Option<seq<string>>)
  {
    IsImage(p) && (defaults.None? || name in defaults.value)
  }

  /** The array the selection loop builds: go through the profiles in map
      order, and for each chosen one `unset($profile['type'])` and store
      it with `$profiles[$name] = $profile`. */
  function Selection(ps: ProfileMap, defaults: Option<seq<string>>): ProfileMap
    decreases |ps|
  {
    if ps == [] then []
    else
      var r := Selection(ps[..|ps| - 1], defaults);
      var last := ps[|ps| - 1];
      if Chosen(last.0, last.1, defaults) then Put(r, last.0, Remove(last.1, "type")) else r
  }

  /** The loop of `getDefaultImageProfiles` (and of `getImageProfiles`). */
  method SelectProfiles(ps: ProfileMap, defaults: Option<seq<string>>) returns (r: ProfileMap)
    ensures r == Selection(ps, defaults)
  {
    r := [];
    var i := 0;
    while i < |ps|
      invariant i <= |ps|
      invariant r == Selection(ps[..i], defaults)
    {
      var name, profile := ps[i].0, ps[i].1;
      assert ps[..i + 1][..i] == ps[..i];
      if Chosen(name, profile, defaults) {
        profile := Remove(profile, "type");
        r := Put(r, name, profile);
      }
      i := i + 1;
    }
    assert ps[..i] == ps;
  }

  /** Reference definition of the selection: the chosen profiles, in map
      order, each without its `type` entry. */
  function Filtered(ps: ProfileMap, defaults: Option<seq<string>>): ProfileMap
  {
    if ps == [] then []
    else
      (if Chosen(ps[0].0, ps[0].1, defaults) then [(ps[0].0, Remove(ps[0].1, "type"))] else [])
      + Filtered(ps[1..], defaults)
  }

  lemma {:induction false} FilteredAppend(a: ProfileMap, b: ProfileMap, defaults: Option<seq<string>>)
    ensures Filtered(a + b, defaults) == Filtered(a, defaults) + Filtered(b, defaults)
  {
    if a != [] {
      assert (a + b)[1..] == a[1..] + b;
      FilteredAppend(a[1..], b, defaults);
    } else {
      assert a + b == b;
    }
  }

  /** A key absent from the input is absent from the reference selection. */
  lemma {:induction false} FilteredKeysAbsent(ps: ProfileMap, defaults: Option<seq<string>>, k: string)
    requires k !in Keys(ps)
    ensures k !in Keys(Filtered(ps, defaults))
  {
    if ps != [] {
      var head := if Chosen(ps[0].0, ps[0].1, defaults) then [(ps[0].0, Remove(ps[0].1, "type"))] else [];
      assert Keys(ps) == [ps[0].0] + Keys(ps[1..]);
      FilteredKeysAbsent(ps[1..], defaults, k);
      KeysAppend(head, Filtered(ps[1..], defaults));
    }
  }

  /** With distinct names, a profile that is not chosen leaves no entry. */
  lemma {:induction false} FilteredDropsUnchosen(ps: ProfileMap, defaults: Option<seq<string>>, i: nat)
    requires UniqueKeys(ps) && i < |ps| && !Chosen(ps[i].0, ps[i].1, defaults)
    ensures ps[i].0 !in Keys(Filtered(ps, defaults))
  {
    var head := if Chosen(ps[0].0, ps[0].1, defaults) then [(ps[0].0, Remove(ps[0].1, "type"))] else [];
    var tail := ps[1..];
    assert UniqueKeys(tail);
    KeysAppend(head, Filtered(tail, defaults));
    if i == 0 {
      assert ps[0].0 !in Keys(tail) by {
        KeysAbsent(tail, ps[0].0);
      }
      FilteredKeysAbsent(tail, defaults, ps[0].0);
    } else {
      assert tail[i - 1] == ps[i];
      FilteredDropsUnchosen(tail, defaults, i - 1);
    }
  }

  /** With distinct profile names (as in every PHP array) the loop computes
      exactly the reference selection: the order is the profile map's,
      never the defaults list's. */
  lemma {:induction false} SelectionIsFiltered(ps: ProfileMap, defaults: Option<seq<string>>)
    requires UniqueKeys(ps)
    ensures Selection(ps, defaults) == Filtered(ps, defaults)
    decreases |ps|
  {
    if ps != [] {
      var q := ps[..|ps| - 1];
      var last := ps[|ps| - 1];
      assert UniqueKeys(q);
      SelectionIsFiltered(q, defaults);
      assert ps == q + [last];
      FilteredAppend(q, [last], defaults);
      assert Filtered([last], defaults)
          == (if Chosen(last.0, last.1, defaults) then [(last.0, Remove(last.1, "type"))] else []);
      if Chosen(last.0, last.1, defaults) {
        assert last.0 !in Keys(Filtered(q, defaults)) by {
          KeysAbsent(q, last.0);
          FilteredKeysAbsent(q, defaults, last.0);
        }
        PutKeys(Filtered(q, defaults), last.0, Remove(last.1, "type"));
      }
    }
  }

  /** Every chosen profile is in the reference selection, without `type`. */
  lemma {:induction false} FilteredHas(ps: ProfileMap, defaults: Option<seq<string>>, i: nat)
    requires i < |ps| && Chosen(ps[i].0, ps[i].1, defaults)
    ensures (ps[i].0, Remove(ps[i].1, "type")) in Filtered(ps, defaults)
  {
    if i > 0 {
      FilteredHas(ps[1..], defaults, i - 1);
    }
  }

  /** Every entry of the reference selection is a chosen profile without
      its `type` entry. */
  lemma {:induction false} FilteredFrom(ps: ProfileMap, defaults: Option<seq<string>>, e: (string, Profile))
    requires e in Filtered(ps, defaults)
    ensures exists i :: 0 <= i < |ps| && ps[i].0 == e.0 && Chosen(ps[i].0, ps[i].1, defaults)
                        && e.1 == Remove(ps[i].1, "type")
  {
    var head := if Chosen(ps[0].0, ps[0].1, defaults) then [(ps[0].0, Remove(ps[0].1, "type"))] else [];
    if e in head {
      assert ps[0].0 == e.0;
    } else {
      FilteredFrom(ps[1..], defaults, e);
      var i :| 0 <= i < |ps[1..]| && ps[1..][i].0 == e.0 && Chosen(ps[1..][i].0, ps[1..][i].1, defaults)
               && e.1 == Remove(ps[1..][i].1, "type");
      assert ps[i + 1] == ps[1..][i];
    }
  }

  /** `getDefaultImageProfiles` keeps exactly the image profiles named in
      the defaults list, stripped of `type`: a name is present iff its
      profile is chosen, and its value is that profile without `type`. */
  lemma DefaultSelectionExact(ps: ProfileMap, defaults: seq<string>, i: nat)
    requires UniqueKeys(ps) && i < |ps|
    ensures Chosen(ps[i].0, ps[i].1, Some(defaults)) ==>
              Lookup(Selection(ps, Some(defaults)), ps[i].0) == Some(Remove(ps[i].1, "type"))
    ensures !Chosen(ps[i].0, ps[i].1, Some(defaults)) ==> ps[i].0 !in Keys(Selection(ps, Some(defaults)))
  {
    SelectionIsFiltered(ps, Some(defaults));
    var f := Filtered(ps, Some(defaults));
    assert UniqueKeys(f) by {
      FilteredUnique(ps, Some(defaults));
    }
    if Chosen(ps[i].0, ps[i].1, Some(defaults)) {
      FilteredHas(ps, Some(defaults), i);
      LookupUnique(f, ps[i].0, Remove(ps[i].1, "type"));
    } else {
      FilteredDropsUnchosen(ps, Some(defaults), i);
    }
  }

  /** The names a selection keeps are the chosen names, in map order. */
  function ChosenNames(ps: ProfileMap, defaults: Option<seq<string>>): seq<string>
  {
    if ps == [] then []
    else (if Chosen(ps[0].0, ps[0].1, defaults) then [ps[0].0] else []) + ChosenNames(ps[1..], defaults)
  }

  lemma {:induction false} FilteredKeyOrder(ps: ProfileMap, defaults: Option<seq<string>>)
    ensures Keys(Filtered(ps, defaults)) == ChosenNames(ps, defaults)
  {
    if ps != [] {
      FilteredKeyOrder(ps[1..], defaults);
      var head := if Chosen(ps[0].0, ps[0].1, defaults) then [(ps[0].0, Remove(ps[0].1, "type"))] else [];
      KeysAppend(head, Filtered(ps[1..], defaults));
    }
  }

  lemma {:induction false} KeysAppend<V>(a: OrderedMap<V>, b: OrderedMap<V>)
    ensures Keys(a + b) == Keys(a) + Keys(b)
  {
    if a != [] {
      assert (a + b)[1..] == a[1..] + b;
      KeysAppend(a[1..], b);
    } else {
      assert a + b == b;
    }
  }

  lemma FilteredUnique(ps: ProfileMap, defaults: Option<seq<string>>)
    requires UniqueKeys(ps)
    ensures UniqueKeys(Filtered(ps, defaults))
  {
    SelectionIsFiltered(ps, defaults);
    SelectionUnique(ps, defaults);
  }

  lemma {:induction false} SelectionUnique(ps: ProfileMap, defaults: Option<seq<string>>)
    ensures UniqueKeys(Selection(ps, defaults))
    decreases |ps|
  {
    if ps != [] {
      var q := ps[..|ps| - 1];
      var last := ps[|ps| - 1];
      SelectionUnique(q, defaults);
      if Chosen(last.0, last.1, defaults) {
        PutUnique(Selection(q, defaults), last.0, Remove(last.1, "type"));
      }
    }
  }

  /** The names `processFile` falls back to (`array_keys` of the default
      image profiles) are the chosen names in map order. */
  lemma DefaultNames(ps: ProfileMap, defaults: seq<string>)
    requires UniqueKeys(ps)
    ensures Keys(Selection(ps, Some(defaults))) == ChosenNames(ps, Some(defaults))
  {
    SelectionIsFiltered(ps, Some(defaults));
    FilteredKeyOrder(ps, Some(defaults));
  }

  /** What a fresh editing profile starts from: `['type' => 'image']`. */
  const ImageOnly: Profile := [("type", Text("image"))]

  /** The editing profile `__call` starts from. */
  function EditingBase(ps: ProfileMap): Profile
  {
    match Lookup(ps, "editing")
    case Some(p) => p
    case None => ImageOnly
  }

  /** The profiles after `__call($op, $args)`: `$profile[$op] = $args` on
      the editing profile, stored back under `editing`. */
  function WithEditing(ps: ProfileMap, op: string, args: seq<Value>): ProfileMap
  {
    Put(ps, "editing", Put(EditingBase(ps), op, Params(args)))
  }

  /** After `__call`, the editing profile maps the operation to its
      arguments and every other operation keeps its arguments. */
  lemma EditingSetsOp(ps: ProfileMap, op: string, args: seq<Value>, other: string)
    requires other != op
    ensures Lookup(WithEditing(ps, op, args), "editing") == Some(Put(EditingBase(ps), op, Params(args)))
    ensures Lookup(Put(EditingBase(ps), op, Params(args)), op) == Some(Params(args))
    ensures Lookup(Put(EditingBase(ps), op, Params(args)), other) == Lookup(EditingBase(ps), other)
  {
    LookupPutSame(ps, "editing", Put(EditingBase(ps), op, Params(args)));
    LookupPutSame(EditingBase(ps), op, Params(args));
    LookupPutOther(EditingBase(ps), op, Params(args), other);
  }

  /** A repeated operation is overwritten where it stands; a new one is
      appended at the end. */
  lemma EditingKeyOrder(ps: ProfileMap, op: string, args: seq<Value>)
    ensures op in Keys(EditingBase(ps)) ==>
              Keys(Put(EditingBase(ps), op, Params(args))) == Keys(EditingBase(ps))
    ensures op !in Keys(EditingBase(ps)) ==>
              Put(EditingBase(ps), op, Params(args)) == EditingBase(ps) + [(op, Params(args))]
  {
    PutKeys(EditingBase(ps), op, Params(args));
  }

  /** Without an editing profile, the first call builds
      `['type' => 'image', $op => $args]`, which is an image profile. */
  lemma FreshEditing(ps: ProfileMap, op: string, args: seq<Value>)
    requires "editing" !in Keys(ps) && op != "type"
    ensures Put(EditingBase(ps), op, Params(args)) == [("type", Text("image")), (op, Params(args))]
    ensures IsImage(Put(EditingBase(ps), op, Params(args)))
  {
  }

  /** Other profiles are untouched by `__call`. */
  lemma EditingKeepsProfiles(ps: ProfileMap, op: string, args: seq<Value>, name: string)
    requires name != "editing"
    ensures Lookup(WithEditing(ps, op, args), name) == Lookup(ps, name)
  {
    LookupPutOther(ps, "editing", Put(EditingBase(ps), op, Params(args)), name);
  }

  /** Two chained calls with different operations leave both in the editing
      profile: the queue carries over between calls. */
  lemma ChainedCalls(ps: ProfileMap, op1: string, a1: seq<Value>, op2: string, a2: seq<Value>)
    requires op1 != op2
    ensures var ps2 := WithEditing(WithEditing(ps, op1, a1), op2, a2);
            Lookup(EditingBase(ps2), op1) == Some(Params(a1)) && Lookup(EditingBase(ps2), op2) == Some(Params(a2))
  {
    var ps1 := WithEditing(ps, op1, a1);
    EditingSetsOp(ps, op1, a1, op2);
    assert EditingBase(ps1) == Put(EditingBase(ps), op1, Params(a1));
    EditingSetsOp(ps1, op2, a2, op1);
    var ps2 := WithEditing(ps1, op2, a2);
    assert EditingBase(ps2) == Put(EditingBase(ps1), op2, Params(a2));
    LookupPutSame(EditingBase(ps2), op2, Params(a2));
  }

  /** Once `__call` has memoised the profiles, `getProfiles` returns them
      whatever the configuration says, and every profile visible before
      (other than `editing`) is still visible with the same value. */
  lemma CallMemoises(own: ProfileMap, configured: ProfileMap, later: ProfileMap, op: string, args: seq<Value>, name: string)
    requires name != "editing"
    ensures var ps := WithEditing(GetProfiles(own, configured), op, args);
            GetProfiles(ps, later) == ps
    ensures Lookup(GetProfiles(WithEditing(GetProfiles(own, configured), op, args), later), name)
         == Lookup(GetProfiles(own, configured), name)
  {
    var ps := GetProfiles(own, configured);
    var p := Put(EditingBase(ps), op, Params(args));
    LookupPutSame(ps, "editing", p);
    assert WithEditing(ps, op, args) != [];
    EditingKeepsProfiles(ps, op, args, name);
  }

  /** Selection order follows the profile map, not the defaults list. */
  lemma SelectionOrderExample()
    ensures Keys(Selection([("thumb", ImageOnly), ("avatar", ImageOnly)], Some(["avatar", "thumb"])))
         == ["thumb", "avatar"]
  {
    var ps := [("thumb", ImageOnly), ("avatar", ImageOnly)];
    assert IsImage(ImageOnly);
    assert ps[..1] == [("thumb", ImageOnly)];
    assert ps[..1][..0] == [];
    var defaults := Some(["avatar", "thumb"]);
    assert Chosen("thumb", ImageOnly, defaults) && Chosen("avatar", ImageOnly, defaults);
    assert Selection([], defaults) == [];
    var s1 := Selection(ps[..1], defaults);
    assert s1 == Put([], "thumb", Remove(ImageOnly, "type"));
    assert s1 == [("thumb", Remove(ImageOnly, "type"))];
    assert Keys(s1) == ["thumb"];
    PutKeys(s1, "avatar", Remove(ImageOnly, "type"));
  }
}
