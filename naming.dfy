/** Destination-name allocation (`getAppropriateFileName`): expand the
    `structure` template with the date, the client's base name plus a tail,
    and the extension; while that name exists under `location`, change the
    tail and try again. */
module Naming {
  import opened Types
  import opened PhpString
  import opened Paths
  import opened Storage

  /** `Carbon::now()`, reduced to what the template uses. */
  datatype Date = Date(year: nat, month: nat)

  /** Everything the allocation depends on besides the filesystem and the
      random digits. */
  datatype Job = Job(location: string, structure: string, date: Date, base: string, ext: string)

  /** The client file name without its last `|ext| + 1` characters (the
      dot and the extension), followed by the caller's suffix. */
  function BaseName(clientName: string, ext: string, suffix: Option<string>): (r: string)
    ensures |ext| + 1 <= |clientName| ==>
              r == clientName[..|clientName| - |ext| - 1] + OrEmpty(suffix)
    // a negative length counts from the end again: |ext| + 1 - |clientName| more characters go
    ensures |clientName| < |ext| + 1 <= 2 * |clientName| ==>
              r == clientName[..2 * |clientName| - |ext| - 1] + OrEmpty(suffix)
    ensures 2 * |clientName| < |ext| + 1 ==> r == OrEmpty(suffix)
  {
    SubstrPrefix(clientName, |clientName| - |ext| - 1) + OrEmpty(suffix)
  }

  /** PHP truthiness of a tail: `""` and `"0"` (the integer 0) are false. */
  predicate Falsy(tail: string)
  {
    tail == "" || tail == "0"
  }

  /** `$tail = $tail ? mt_rand(0, 9) : '-' . mt_rand(0, 9)`. */
  function NextTail(tail: string, d: Digit): string
  {
    if Falsy(tail) then "-" + [DigitChar(d)] else [DigitChar(d)]
  }

  /** The tail of the k-th candidate, after k draws. */
  function Tail(digits: seq<Digit>, k: nat): string
    requires k <= |digits|
  {
    if k == 0 then "" else NextTail(Tail(digits, k - 1), digits[k - 1])
  }

  /** The four `str_replace` calls, in the order the source makes them. */
  function Expand(structure: string, date: Date, name: string, ext: string): string
  {
    var y := StrReplace(structure, "{year}", DecimalString(date.year));
    var m := StrReplace(y, "{month}", DecimalString(date.month));
    var n := StrReplace(m, "{name}", name);
    StrReplace(n, "{ext}", ext)
  }

  function Candidate(j: Job, digits: seq<Digit>, k: nat): string
    requires k <= |digits|
  {
    Expand(j.structure, j.date, j.base + Tail(digits, k), j.ext)
  }

  /** Whether the k-th candidate is already taken. */
  predicate Taken(files: map<string, Content>, j: Job, digits: seq<Digit>, k: nat)
    requires k <= |digits|
  {
    Join(j.location, Candidate(j, digits, k)) in files
  }

  /** The loop from candidate `k` on. Candidate k is checked after the k-th
      draw, so it can be checked only while a digit remains. */
  function Search(files: map<string, Content>, j: Job, digits: seq<Digit>, k: nat): Result<string, Error>
    requires k <= |digits|
    decreases |digits| - k
  {
    if k == |digits| then Failure(OutOfDigits)
    else if Taken(files, j, digits, k) then Search(files, j, digits, k + 1)
    else Success(Candidate(j, digits, k))
  }

  /** What `getAppropriateFileName` returns, or the exception it throws. */
  function Allocation(files: map<string, Content>, j: Job, digits: seq<Digit>): Result<string, Error>
  {
    if !Contains(j.structure, "{name}") then Failure(InvalidStructure)
    else Search(files, j, digits, 0)
  }

  /** `name` is candidate k, which is free, and every earlier candidate was taken. */
  predicate FirstFreeAt(files: map<string, Content>, j: Job, digits: seq<Digit>, k: nat, name: string)
  {
    && k < |digits|
    && name == Candidate(j, digits, k)
    && !Taken(files, j, digits, k)
    && forall i :: 0 <= i < k ==> Taken(files, j, digits, i)
  }

  /** The loop, with `mt_rand` replaced by the digit oracle. */
  method Allocate(disk: Disk, j: Job, digits: seq<Digit>) returns (r: Result<string, Error>)
    ensures r == Allocation(disk.files, j, digits)
  {
    if !Contains(j.structure, "{name}") {
      return Failure(InvalidStructure);
    }
    var tail := "";
    var k := 0;
    var filename: string;
    while true
      invariant k <= |digits|
      invariant tail == Tail(digits, k)
      invariant Search(disk.files, j, digits, 0) == Search(disk.files, j, digits, k)
      decreases |digits| - k
    {
      filename := Expand(j.structure, j.date, j.base + tail, j.ext);
      if k == |digits| {
        return Failure(OutOfDigits);
      }
      tail := NextTail(tail, digits[k]);
      k := k + 1;
      if !disk.Exists(Join(j.location, filename)) {
        return Success(filename);
      }
    }
  }

  lemma {:induction false} SearchNeverInvalid(files: map<string, Content>, j: Job, digits: seq<Digit>, k: nat)
    requires k <= |digits|
    ensures Search(files, j, digits, k) != Failure(InvalidStructure)
    decreases |digits| - k
  {
    if k < |digits| && Taken(files, j, digits, k) {
      SearchNeverInvalid(files, j, digits, k + 1);
    }
  }

  /** The template error is raised exactly when the template lacks `{name}`. */
  lemma AllocationInvalidIff(files: map<string, Content>, j: Job, digits: seq<Digit>)
    ensures Allocation(files, j, digits) == Failure(InvalidStructure) <==> !Contains(j.structure, "{name}")
  {
    SearchNeverInvalid(files, j, digits, 0);
  }

  lemma {:induction false} SearchFindsFirstFree(files: map<string, Content>, j: Job, digits: seq<Digit>, k: nat)
    requires k <= |digits|
    requires forall i :: 0 <= i < k ==> Taken(files, j, digits, i)
    ensures Search(files, j, digits, k).Success? ==>
              FirstFreeAt(files, j, digits, Index(files, j, digits, k), Search(files, j, digits, k).value)
    ensures Search(files, j, digits, k) == Failure(OutOfDigits) ==>
              forall i :: 0 <= i < |digits| ==> Taken(files, j, digits, i)
    decreases |digits| - k
  {
    if k < |digits| && Taken(files, j, digits, k) {
      SearchFindsFirstFree(files, j, digits, k + 1);
    }
  }

  /** The position at which the search from k stops. */
  function Index(files: map<string, Content>, j: Job, digits: seq<Digit>, k: nat): nat
    requires k <= |digits|
    decreases |digits| - k
  {
    if k == |digits| || !Taken(files, j, digits, k) then k else Index(files, j, digits, k + 1)
  }

  /** A successful allocation returns the first free candidate, and every
      earlier candidate existed; running out of digits means every
      candidate that could be drawn existed. */
  lemma AllocationFirstFree(files: map<string, Content>, j: Job, digits: seq<Digit>)
    ensures Allocation(files, j, digits).Success? ==>
              FirstFreeAt(files, j, digits, Index(files, j, digits, 0), Allocation(files, j, digits).value)
    ensures Allocation(files, j, digits) == Failure(OutOfDigits) ==>
              forall i :: 0 <= i < |digits| ==> Taken(files, j, digits, i)
  {
    if Contains(j.structure, "{name}") {
      SearchFindsFirstFree(files, j, digits, 0);
    }
  }

  lemma {:induction false} FirstFreeIsFound(files: map<string, Content>, j: Job, digits: seq<Digit>, k: nat, m: nat, name: string)
    requires m <= k
    requires FirstFreeAt(files, j, digits, k, name)
    ensures Search(files, j, digits, m) == Success(name)
    decreases k - m
  {
    if m < k {
      FirstFreeIsFound(files, j, digits, k, m + 1, name);
    }
  }

  /** Conversely, the first free candidate is what the allocation returns. */
  lemma AllocationReturnsFirstFree(files: map<string, Content>, j: Job, digits: seq<Digit>, k: nat, name: string)
    requires Contains(j.structure, "{name}")
    requires FirstFreeAt(files, j, digits, k, name)
    ensures Allocation(files, j, digits) == Success(name)
  {
    FirstFreeIsFound(files, j, digits, k, 0, name);
  }

  /** Tails never accumulate: after the first draw a tail is `-d` when the
      previous tail was falsy and the bare digit `d` otherwise. */
  lemma {:induction false} TailShape(digits: seq<Digit>, k: nat)
    requires 1 <= k <= |digits|
    ensures |Tail(digits, k)| <= 2
    ensures Tail(digits, k)[|Tail(digits, k)| - 1] == DigitChar(digits[k - 1])
    ensures Tail(digits, k) == "-" + [DigitChar(digits[k - 1])] <==> Falsy(Tail(digits, k - 1))
    ensures Tail(digits, k) == [DigitChar(digits[k - 1])] <==> !Falsy(Tail(digits, k - 1))
  {
  }

  /** A placeholder-like word: `{`, a second character that tells it apart,
      and no further brace. */
  predicate Word(w: string)
  {
    |w| >= 2 && w[0] == '{' && NoBrace(w[1..])
  }

  /** A piece of a template that replacing the word `p` either hits as a
      whole or passes over untouched. */
  predicate Fits(x: string, p: string)
  {
    x == p || NoBrace(x) || (Word(x) && |p| >= 2 && x[1] != p[1])
  }

  /** What replacing `p` by `rep` makes of a fitting piece. */
  function Replaced(x: string, p: string, rep: string): string
  {
    if x == p then rep else x
  }

  /** One fitting piece at the front is replaced or copied, and the scan
      goes on after it. */
  lemma ReplacePiece(x: string, rest: string, p: string, rep: string)
    requires Word(p) && Fits(x, p)
    ensures StrReplace(x + rest, p, rep) == Replaced(x, p, rep) + StrReplace(rest, p, rep)
  {
    if x == p {
      ReplaceLeading(p, rest, rep);
    } else if NoBrace(x) {
      ReplaceSkipsPrefix(x, rest, p, rep);
    } else {
      ReplaceSkipsOtherWord(x, rest, p, rep);
    }
  }

  /** A fitting piece on its own. */
  lemma ReplaceLastPiece(x: string, p: string, rep: string)
    requires Word(p) && Fits(x, p)
    ensures StrReplace(x, p, rep) == Replaced(x, p, rep)
  {
    assert x + "" == x;
    ReplacePiece(x, "", p, rep);
    assert Replaced(x, p, rep) + "" == Replaced(x, p, rep);
  }

  /** A template of the shape `a/b/c.d`. */
  function Template(a: string, b: string, c: string, d: string): string
  {
    a + ("/" + (b + ("/" + (c + ("." + d)))))
  }

  /** One `str_replace` on `a/b/c.d` whose pieces all fit the pattern
      replaces exactly the pieces equal to it and keeps the separators. */
  lemma TemplateStep(a: string, b: string, c: string, d: string, p: string, rep: string)
    requires Word(p) && Fits(a, p) && Fits(b, p) && Fits(c, p) && Fits(d, p)
    ensures StrReplace(Template(a, b, c, d), p, rep)
         == Template(Replaced(a, p, rep), Replaced(b, p, rep), Replaced(c, p, rep), Replaced(d, p, rep))
  {
    assert NoBrace("/") && NoBrace(".");
    ReplaceLastPiece(d, p, rep);
    ReplacePiece(".", d, p, rep);
    ReplacePiece(c, "." + d, p, rep);
    ReplacePiece("/", c + ("." + d), p, rep);
    ReplacePiece(b, "/" + (c + ("." + d)), p, rep);
    ReplacePiece("/", b + ("/" + (c + ("." + d))), p, rep);
    ReplacePiece(a, "/" + (b + ("/" + (c + ("." + d)))), p, rep);
  }

  /** The template of the shipped configuration, `{year}/{month}/{name}.{ext}`. */
  const DefaultStructure: string := Template("{year}", "{month}", "{name}", "{ext}")

  /** A brace-free text is not a placeholder. */
  lemma NotWord(x: string, p: string)
    requires NoBrace(x) && Word(p)
    ensures x != p
  {
    if |x| >= 1 {
      assert x[0] != '{';
    }
  }

  /** The four replacements on `py/pm/pn.pe`, for four words told apart by
      their second characters and brace-free values. */
  lemma ExpandTemplate(py: string, pm: string, pn: string, pe: string, Y: string, M: string, name: string, ext: string)
    requires Word(py) && Word(pm) && Word(pn) && Word(pe)
    requires py[1] != pm[1] && py[1] != pn[1] && py[1] != pe[1]
    requires pm[1] != pn[1] && pm[1] != pe[1] && pn[1] != pe[1]
    requires NoBrace(Y) && NoBrace(M) && NoBrace(name) && NoBrace(ext)
    ensures StrReplace(StrReplace(StrReplace(StrReplace(Template(py, pm, pn, pe), py, Y), pm, M), pn, name), pe, ext)
         == Template(Y, M, name, ext)
  {
    NotWord(Y, pm); NotWord(Y, pn); NotWord(Y, pe);
    NotWord(M, pn); NotWord(M, pe);
    NotWord(name, pe);
    TemplateStep(py, pm, pn, pe, py, Y);
    TemplateStep(Y, pm, pn, pe, pm, M);
    TemplateStep(Y, M, pn, pe, pn, name);
    TemplateStep(Y, M, name, pe, pe, ext);
  }

  /** The four placeholders are words told apart by their second characters. */
  lemma PlaceholderWords()
    ensures Word("{year}") && Word("{month}") && Word("{name}") && Word("{ext}")
    ensures "{year}"[1] != "{month}"[1] && "{year}"[1] != "{name}"[1] && "{year}"[1] != "{ext}"[1]
    ensures "{month}"[1] != "{name}"[1] && "{month}"[1] != "{ext}"[1] && "{name}"[1] != "{ext}"[1]
  {
    assert NoBrace("year}") && NoBrace("month}") && NoBrace("name}") && NoBrace("ext}");
  }

  /** With the template of the shipped configuration and a brace-free name
      and extension, a candidate is the plain concatenation: for example
      `2024/7/photo.jpg` for `photo` and `jpg` in July 2024. */
  lemma ExpandDefaultStructure(date: Date, name: string, ext: string)
    requires NoBrace(name) && NoBrace(ext)
    ensures Expand(DefaultStructure, date, name, ext)
         == DecimalString(date.year) + "/" + DecimalString(date.month) + "/" + name + "." + ext
  {
    var Y, M := DecimalString(date.year), DecimalString(date.month);
    assert Expand(DefaultStructure, date, name, ext) == Template(Y, M, name, ext) by {
      DecimalNoBrace(date.year);
      DecimalNoBrace(date.month);
      PlaceholderWords();
      ExpandTemplate("{year}", "{month}", "{name}", "{ext}", Y, M, name, ext);
    }
    TemplateFlat(Y, M, name, ext);
  }

  lemma TemplateFlat(a: string, b: string, c: string, d: string)
    ensures Template(a, b, c, d) == a + "/" + b + "/" + c + "." + d
  {
  }

  /** The shipped template names the file. */
  lemma DefaultStructureValid()
    ensures Contains(DefaultStructure, "{name}")
  {
    assert DefaultStructure == ("{year}" + "/" + "{month}" + "/") + "{name}" + ("." + "{ext}") by {
      assert Template("{year}", "{month}", "{name}", "{ext}") == ("{year}" + "/" + "{month}" + "/") + "{name}" + ("." + "{ext}");
    }
    ContainsPlaced("{year}" + "/" + "{month}" + "/", "{name}", "." + "{ext}");
  }

  /** Under the shipped template, a candidate with a brace-free name and
      extension is `year/month/name.ext`. */
  lemma CandidateDefault(j: Job, digits: seq<Digit>, k: nat)
    requires k <= |digits|
    requires j.structure == DefaultStructure && NoBrace(j.base + Tail(digits, k)) && NoBrace(j.ext)
    ensures Candidate(j, digits, k)
         == DecimalString(j.date.year) + "/" + DecimalString(j.date.month) + "/" + (j.base + Tail(digits, k)) + "." + j.ext
  {
    ExpandDefaultStructure(j.date, j.base + Tail(digits, k), j.ext);
  }

  /** Uploading `photo.jpg` with the shipped template and no clash stores
      it as `year/month/photo.jpg`. */
  lemma PhotoExample(files: map<string, Content>, j: Job, digits: seq<Digit>)
    requires |digits| >= 1
    requires j.structure == DefaultStructure && j.base == BaseName("photo.jpg", "jpg", None) && j.ext == "jpg"
    requires Join(j.location, DecimalString(j.date.year) + "/" + DecimalString(j.date.month) + "/photo.jpg") !in files
    ensures Allocation(files, j, digits) == Success(DecimalString(j.date.year) + "/" + DecimalString(j.date.month) + "/photo.jpg")
  {
    var Y, M := DecimalString(j.date.year), DecimalString(j.date.month);
    var f := Y + "/" + M + "/photo.jpg";
    assert j.base + Tail(digits, 0) == "photo";
    assert NoBrace("photo") && NoBrace("jpg");
    CandidateDefault(j, digits, 0);
    assert Y + "/" + M + "/" + "photo" + "." + "jpg" == f;
    DefaultStructureValid();
    assert FirstFreeAt(files, j, digits, 0, f);
    AllocationReturnsFirstFree(files, j, digits, 0, f);
  }

  /** July 2024 is written `2024/7`: the month is not padded. */
  lemma July2024()
    ensures DecimalString(2024) + "/" + DecimalString(7) == "2024/7"
  {
    DecimalYear();
    assert DecimalString(7) == "7" by {
      assert DigitChar(7) == '7';
    }
  }

  /** The year of `July2024` as PHP prints it. */
  lemma DecimalYear()
    ensures DecimalString(2024) == "2024"
  {
    assert DigitChar(2) == '2' && DigitChar(0) == '0' && DigitChar(4) == '4';
    assert DecimalString(2) == "2";
    assert DecimalString(20) == "2" + "0";
    assert DecimalString(202) == "20" + "2";
    assert DecimalString(2024) == "202" + "4";
  }

  /** The first candidate for `a.png` under the shipped template. */
  lemma FirstCandidateOfA(j: Job, digits: seq<Digit>)
    requires j.structure == DefaultStructure && j.base == "a" && j.ext == "png"
    ensures Candidate(j, digits, 0) == DecimalString(j.date.year) + "/" + DecimalString(j.date.month) + "/" + "a.png"
  {
    assert j.base + Tail(digits, 0) == "a";
    assert NoBrace("a") && NoBrace("png");
    CandidateDefault(j, digits, 0);
    assert "a" + "." + "png" == "a.png";
  }

  /** The second candidate for `a.png`: the empty tail was falsy, so it
      becomes `-d`. */
  lemma SecondCandidateOfA(j: Job, digits: seq<Digit>)
    requires |digits| >= 1
    requires j.structure == DefaultStructure && j.base == "a" && j.ext == "png"
    ensures Candidate(j, digits, 1)
         == DecimalString(j.date.year) + "/" + DecimalString(j.date.month) + "/" + ("a-" + [DigitChar(digits[0])] + ".png")
  {
    var d := [DigitChar(digits[0])];
    assert j.base + Tail(digits, 1) == "a" + "-" + d;
    assert NoBrace("a" + "-" + d) && NoBrace("png");
    CandidateDefault(j, digits, 1);
    assert "a" + "-" + d + "." + "png" == "a-" + d + ".png";
  }

  /** When `a.png` is taken, the next upload of `a.png` gets `a-<d>.png`,
      where d is the first digit drawn. */
  lemma SecondUploadExample(files: map<string, Content>, j: Job, digits: seq<Digit>)
    requires |digits| >= 2
    requires j.structure == DefaultStructure && j.base == BaseName("a.png", "png", None) && j.ext == "png"
    requires var prefix := DecimalString(j.date.year) + "/" + DecimalString(j.date.month) + "/";
             Join(j.location, prefix + "a.png") in files &&
             Join(j.location, prefix + ("a-" + [DigitChar(digits[0])] + ".png")) !in files
    ensures Allocation(files, j, digits)
         == Success(DecimalString(j.date.year) + "/" + DecimalString(j.date.month) + "/" + ("a-" + [DigitChar(digits[0])] + ".png"))
  {
    var f := DecimalString(j.date.year) + "/" + DecimalString(j.date.month) + "/" + ("a-" + [DigitChar(digits[0])] + ".png");
    assert j.base == "a";
    FirstCandidateOfA(j, digits);
    SecondCandidateOfA(j, digits);
    DefaultStructureValid();
    assert FirstFreeAt(files, j, digits, 1, f);
    AllocationReturnsFirstFree(files, j, digits, 1, f);
  }
}
