# Verified model of the `drive` upload pipeline

This project models, in Dafny, the upload pipeline of the PHP package
`namest/drive`, which exists in two versions.

- `UploadedFile` is the session version. It stages the incoming file in a
  temporary directory. It optionally edits a copy with image profiles, some
  configured and one built from chained calls such as `->crop(...)`. It picks a
  collision-free destination name from a template, copies the edited file
  there, and deletes the temporary directory when disposed.
- `Drive::store` is the older one-shot version. It validates the request's
  file, runs every image profile on it in place, picks a name and moves the
  file.

The modules follow the program's structure:

| module | file | what it holds |
|---|---|---|
| `Types` | types.dfy | `Option`, `Result`, bytes, digits, errors (one per exception the code throws) |
| `PhpArray` | php_array.dfy | PHP arrays as insertion-ordered maps: `Keys`, `Lookup`, `Put` (overwrite in place or append), `Remove` |
| `PhpString` | php_string.dfy | `strstr` truthiness, `str_replace`, `substr` with a negative length, integer-to-string |
| `Paths` | paths.dfy | `getRootPath`, `extractPath`, the destination `location/dir/name` |
| `Storage` | storage.dfy | the filesystem as a class `Disk` over a map from path to content; copy and move can fail |
| `Naming` | naming.dfy | `getAppropriateFileName`: the template expansion, the tail rule and the do-while loop |
| `Profiles` | profiles.dfy | `getProfiles`, `getProfile`, the default/image profile selection, the `editing` profile built by `__call` |
| `Transform` | transform.dfy | running profiles on an image through an uninterpreted image library |
| `Settings` | settings.dfy | the configuration both versions read |
| `Upload` | upload.dfy | the session: each step as a function of the session state, and the class `UploadedFile` proved to follow them |
| `Drive` | drive.dfy | `store` as a function, and the class `Drive` proved to follow it |

Inputs stand in for the outside world:

- The request's files and the validator's verdict are inputs.
- `Carbon::now()` becomes a `Date`.
- `Str::random()` becomes the token arguments.
- `mt_rand(0, 9)` becomes a sequence of digits.
- An `Engine` value supplies the image library's operations and a
  `readable` test. When `readable` fails, that stands for `NotReadableException`.

In these places the code's behaviour may surprise; the model follows the code:

- **The tail does not grow.** On a clash, an empty or falsy tail (`""`, or the
  digit `0`) becomes `-d`. Any other tail is replaced by one bare digit
  (src/UploadedFile.php:335). So the candidates can go `name`, `name-3`, `name7`,
  `name0`, `name-5`… and never grow longer than two characters.
- **Chained calls overwrite.** A chained call overwrites an existing operation
  in place. The `editing` profile persists on the object across saves
  (src/UploadedFile.php:411-425).
- **`editing` is queued every time.** `editing` is queued again on every call.
- **Nothing is reset after the final copy.** `useProfiles` is reset only at the
  end of a normal `processFile` run.
- **A second save fails.** The upload was moved the first time, so a second
  `save` fails at staging.
- **The final copy source is unchecked.** The final copy reads
  `"{temp}/{temporaryEditedName}"` even when no edited copy was made
  (src/UploadedFile.php:390). On a fresh session with no profiles to run, that
  path is `"{temp}/"`, and the file is not stored. The model keeps this
  behaviour and proves its consequence
  (`Upload.FreshSaveWithoutProfilesStoresNothing`).

## Model

| member | source | states |
|---|---|---|
| `PhpArray.Keys` | src/UploadedFile.php:211 | `array_keys`: one key per entry, in insertion order; stated together with `PhpArray.KeyAt` and `PhpArray.PutKeys` |
| `PhpArray.Put` | src/UploadedFile.php:420-422 | an existing key keeps its place, so the length is unchanged; a new key adds exactly one entry |
| `PhpArray.Lookup` | src/UploadedFile.php:292-293 | a lookup finds a value exactly when the key is present, and that value is stored under the key |
| `PhpArray.PutKeys` | src/UploadedFile.php:420 | assigning an existing key keeps the key order; assigning a new key appends exactly that entry |
| `PhpArray.LookupPutSame` | src/UploadedFile.php:420 | after `$m[$k] = $v`, `$m[$k]` reads `$v` |
| `PhpArray.LookupPutOther` | src/UploadedFile.php:420 | assigning one key leaves every other key's value unchanged |
| `PhpArray.PutUnique` | src/UploadedFile.php:277 | assignment keeps the keys distinct |
| `PhpArray.LookupUnique` | src/UploadedFile.php:292-293 | with distinct keys, a lookup returns the one value stored under the key |
| `PhpArray.Remove` | src/UploadedFile.php:276 | `unset` removes every entry of the key and keeps every other entry |
| `PhpArray.RemoveAbsent` | src/UploadedFile.php:276 | `unset` of a key the array lacks leaves the array as it was |
| `PhpArray.RemoveSingle` | src/UploadedFile.php:276 | on a one-entry array, `unset` drops the entry exactly when it carries the key |
| `PhpArray.RemoveAppend` | src/UploadedFile.php:276 | `unset` distributes over concatenation, so the remaining entries keep their order |
| `PhpArray.KeysAbsent` | src/UploadedFile.php:292 | a key that no entry carries is not among `array_keys` |
| `PhpString.Contains` | src/UploadedFile.php:310 | `strstr($s, $pat)` as a test: `pat` occurs somewhere in `s`; stated by `PhpString.ContainsIff` in both directions |
| `PhpString.StrReplace` | src/UploadedFile.php:332 | `str_replace` scanning left to right, replacing non-overlapping occurrences, with an empty pattern changing nothing; its properties are the `PhpString.Replace...` lemmas |
| `PhpString.SubstrPrefix` | src/UploadedFile.php:317 | `substr($s, 0, $len)` is a prefix: of length `len` when it fits, `|s| + len` for a negative length, the whole string for a length at or past the end, and empty for a negative length past the start |
| `PhpString.ReplaceAbsent` | src/UploadedFile.php:331-333 | `str_replace` leaves a string that does not contain the pattern unchanged |
| `PhpString.ReplaceLeading` | src/UploadedFile.php:331-333 | a leading occurrence of the pattern becomes the replacement, and the scan goes on after it |
| `PhpString.ReplaceSkipsPrefix` | src/UploadedFile.php:331-333 | text without `{` is copied through when replacing a `{...}` placeholder |
| `PhpString.ReplaceSkipsOtherWord` | src/UploadedFile.php:331-333 | a different placeholder is copied through when replacing one placeholder |
| `PhpString.ContainsPlaced` | src/UploadedFile.php:310 | a template with `{name}` placed anywhere passes the `strstr` test |
| `PhpString.Position` | src/UploadedFile.php:310 | where the substring `strstr` returns begins: an occurrence of the pattern |
| `PhpString.ContainsAt` | src/UploadedFile.php:310 | conversely, a template that passes the `strstr` test is some text, `{name}` and more text |
| `PhpString.ContainsIff` | src/UploadedFile.php:310 | the `strstr` test passes exactly when the pattern occurs in the string |
| `PhpString.DecimalString` | src/UploadedFile.php:325-326 | the year and month are written as decimal digits, at least one, with no leading zero except for zero itself |
| `PhpString.DecimalValue` | src/UploadedFile.php:325-326 | the digits written for a number denote that number |
| `Paths.RootPath` | src/UploadedFile.php:345-361 | `local` gives `root`, `s3` gives `bucket`, `rackspace` gives `container`, any other driver throws (same code at src/Drive.php:237-253) |
| `Paths.LastSlash` | src/UploadedFile.php:370-371 | the index of the last `/` in a path that has one |
| `Paths.ExtractPath` | src/UploadedFile.php:368-374 | the name part has no `/`; `dir + "/" + name` is the input when it has a `/`; otherwise the directory is `""` (same code at src/Drive.php:260-266) |
| `Paths.Destination` | src/UploadedFile.php:386-390 | for a file name with a `/`, the destination `location/dir/name` is exactly the path `location/filename` whose existence the naming loop checked |
| `Storage.Disk.constructor` | src/UploadedFile.php:123-133 | a disk with the given files and no deletions yet |
| `Storage.Disk.Copy` | src/UploadedFile.php:165 | a copy succeeds exactly when the source exists and the destination is writable; the destination then holds the source's content |
| `Storage.Disk.Receive` | src/UploadedFile.php:162 | moving the upload in succeeds exactly when the destination is writable |
| `Storage.Disk.Write` | src/UploadedFile.php:249 | the encoder writes the image to the path |
| `Storage.Disk.DeleteDirectory` | src/UploadedFile.php:180 | every file at or below the directory is removed, every other file kept, and one more deletion is counted |
| `Naming.BaseName` | src/UploadedFile.php:315-317 | the client name without its last `|ext| + 1` characters, followed by the suffix (nothing for `null`); for a name shorter than that, the negative length counts from the end and drops `|ext| + 1 - |name|` characters, and the base is empty once that reaches the whole name |
| `Naming.NextTail` | src/UploadedFile.php:335 | the next tail after a clash; its shape is stated by `Naming.TailShape` |
| `Naming.Expand` | src/UploadedFile.php:322-333 | the four `str_replace` calls in the order year, month, name, ext; its results are stated by `Naming.ExpandTemplate` and `Naming.ExpandDefaultStructure` |
| `Naming.Allocation` | src/UploadedFile.php:305-338 | what `getAppropriateFileName` returns or throws; stated by `Naming.AllocationInvalidIff`, `Naming.AllocationFirstFree` and `Naming.AllocationReturnsFirstFree` |
| `Naming.Allocate` | src/UploadedFile.php:305-339 | the do-while loop returns what the allocation specification returns |
| `Naming.AllocationInvalidIff` | src/UploadedFile.php:310-311 | the template exception is raised exactly when the template has no `{name}` (read with `PhpString.ContainsIff`) |
| `Naming.AllocationFirstFree` | src/UploadedFile.php:319-338 | a returned name is the first free candidate and every earlier candidate existed; running out of digits means every drawable candidate existed |
| `Naming.AllocationReturnsFirstFree` | src/UploadedFile.php:319-338 | conversely, the first free candidate is what the loop returns |
| `Naming.Search` | src/UploadedFile.php:319-336 | the do-while from candidate `k` on; stated by `Naming.SearchNeverInvalid`, `Naming.SearchFindsFirstFree` and `Naming.FirstFreeIsFound` |
| `Naming.SearchNeverInvalid` | src/UploadedFile.php:321-336 | the retry loop itself never raises the template error |
| `Naming.SearchFindsFirstFree` | src/UploadedFile.php:321-336 | from any candidate on, the loop stops at the first free one |
| `Naming.FirstFreeIsFound` | src/UploadedFile.php:321-336 | a free candidate preceded only by existing ones is the one found |
| `Naming.TailShape` | src/UploadedFile.php:335 | a tail has at most two characters and ends with the digit drawn; it is `-d` exactly when the previous tail was falsy, and the bare `d` otherwise |
| `Naming.ExpandDefaultStructure` | src/UploadedFile.php:322-333 | with `{year}/{month}/{name}.{ext}` and a brace-free name and extension, the four replacements give `year/month/name.ext` (month not padded) |
| `Naming.TemplateStep` | src/UploadedFile.php:331-333 | one `str_replace` on a template `a/b/c.d` replaces exactly the pieces equal to the placeholder and keeps every separator and every other piece |
| `Naming.ExpandTemplate` | src/UploadedFile.php:324-333 | the four replacements, made in the order year, month, name, ext, fill each placeholder of `py/pm/pn.pe` with its brace-free value |
| `Naming.CandidateDefault` | src/UploadedFile.php:322-333 | under the shipped template, every candidate with a brace-free name is `year/month/name+tail.ext` |
| `Naming.DefaultStructureValid` | config/drive.php:6 | the shipped template contains `{name}` |
| `Naming.PhotoExample` | src/UploadedFile.php:313-338 | uploading `photo.jpg` with the shipped template and no clash yields `year/month/photo.jpg` |
| `Naming.July2024` | src/UploadedFile.php:325-326 | July 2024 is written `2024/7`: the month is not zero-padded |
| `Naming.FirstCandidateOfA` | src/UploadedFile.php:319-333 | the first candidate for `a.png` is `year/month/a.png` |
| `Naming.SecondCandidateOfA` | src/UploadedFile.php:335 | the second candidate for `a.png` is `year/month/a-d.png` for the first digit drawn |
| `Naming.SecondUploadExample` | src/UploadedFile.php:319-336 | when `a.png` exists and `a-d.png` does not, the name is `a-d.png` for the first digit drawn |
| `Profiles.GetProfiles` | src/UploadedFile.php:258-261 | the session's own profiles when there are any, otherwise the configured ones; stated by `Profiles.CallMemoises` |
| `Profiles.Selection` | src/UploadedFile.php:266-281 | the `getDefaultImageProfiles` loop; stated by `Profiles.SelectionIsFiltered`, `Profiles.DefaultSelectionExact` and `Profiles.SelectionUnique` |
| `Profiles.IsImage` | src/UploadedFile.php:221 | `$profile['type'] == 'image'`, with a missing `type` reading `null`; used by `Profiles.FreshEditing`, `Upload.LastImage` and the selection lemmas (same test at src/UploadedFile.php:273 and src/Drive.php:166) |
| `Profiles.EditingBase` | src/UploadedFile.php:415-418 | the stored `editing` profile when there is one, otherwise `['type' => 'image']`; stated by `Profiles.FreshEditing` and `Profiles.EditingSetsOp` |
| `Profiles.WithEditing` | src/UploadedFile.php:411-422 | the profiles after `__call`; stated by `Profiles.EditingSetsOp`, `Profiles.EditingKeyOrder`, `Profiles.FreshEditing` and `Profiles.EditingKeepsProfiles` |
| `Profiles.GetProfile` | src/UploadedFile.php:288-296 | a profile is returned exactly when its name is a key, and it is the one stored there; any other name throws with that name (same code at src/Drive.php:181-189) |
| `Profiles.SelectProfiles` | src/UploadedFile.php:266-281 | the selection loop builds exactly the selection specification (same loop at src/Drive.php:161-174) |
| `Profiles.SelectionIsFiltered` | src/UploadedFile.php:272-280 | with distinct names, the selection is the chosen profiles in the profile map's order, each without `type` |
| `Profiles.FilteredAppend` | src/UploadedFile.php:272-280 | selecting from two parts is selecting from each |
| `Profiles.FilteredKeysAbsent` | src/UploadedFile.php:272-280 | the selection adds no name that is not a profile |
| `Profiles.FilteredDropsUnchosen` | src/UploadedFile.php:273-274 | a profile that is not an image profile, or is not in the defaults list, is skipped |
| `Profiles.FilteredHas` | src/UploadedFile.php:276-277 | every chosen profile is kept, without its `type` |
| `Profiles.FilteredFrom` | src/UploadedFile.php:273-277 | every kept entry is a chosen profile without its `type` |
| `Profiles.DefaultSelectionExact` | src/UploadedFile.php:266-281 | `getDefaultImageProfiles` holds a name exactly when its profile is an image profile named in the defaults, with the profile minus `type` |
| `Profiles.FilteredKeyOrder` | src/UploadedFile.php:272-280 | the kept names are the chosen names in map order |
| `Profiles.KeysAppend` | src/UploadedFile.php:277 | `array_keys` of two parts is the keys of each |
| `Profiles.FilteredUnique` | src/UploadedFile.php:277 | the selection has distinct names |
| `Profiles.SelectionUnique` | src/UploadedFile.php:277 | the loop's result has distinct names |
| `Profiles.DefaultNames` | src/UploadedFile.php:211 | the fallback names `array_keys($this->getDefaultImageProfiles())` are the chosen names in map order |
| `Profiles.SelectionOrderExample` | src/UploadedFile.php:272-280 | with profiles `thumb`, `avatar` and defaults `[avatar, thumb]`, the order is `thumb`, `avatar` |
| `Profiles.EditingSetsOp` | src/UploadedFile.php:413-422 | after `__call`, `editing` maps the operation to its arguments, and every other operation keeps its arguments |
| `Profiles.EditingKeyOrder` | src/UploadedFile.php:420 | a repeated operation is overwritten where it stands; a new one is appended last |
| `Profiles.FreshEditing` | src/UploadedFile.php:415-420 | without an `editing` profile, the first call builds `['type' => 'image', op => args]`, an image profile |
| `Profiles.EditingKeepsProfiles` | src/UploadedFile.php:422 | `__call` leaves every other profile unchanged |
| `Profiles.ChainedCalls` | src/UploadedFile.php:411-425 | two chained calls with different operations leave both in `editing` |
| `Profiles.CallMemoises` | src/UploadedFile.php:258-261 | after `__call` memoises the profiles, `getProfiles` ignores the configuration, and every profile other than `editing` keeps its value |
| `Transform.ApplySteps` | src/UploadedFile.php:239-244 | every non-`type` entry applied in key order; stated by `Transform.RunSteps`, `Transform.ApplyStepsAppend`, `Transform.SkipTypeIsRemove` and `Transform.NoTypeRunsAll` |
| `Transform.ApplyProfiles` | src/Drive.php:138-142 | every entry of every profile applied in order; stated by `Transform.RunProfiles` and `Transform.ApplyProfilesAppend` |
| `Transform.RunSteps` | src/UploadedFile.php:239-244 | the loop runs every non-`type` entry in key order |
| `Transform.RunProfiles` | src/Drive.php:138-142 | the nested loops run every entry of every profile in order, on one image |
| `Transform.ApplyStepsAppend` | src/UploadedFile.php:239-244 | running a profile in two parts is running it whole |
| `Transform.SkipTypeIsRemove` | src/Drive.php:169 | removing `type` and running everything equals skipping `type` on the way (src/UploadedFile.php:240) |
| `Transform.NoTypeRunsAll` | src/Drive.php:139-141 | a profile without `type` is run in full |
| `Transform.ApplyProfilesAppend` | src/Drive.php:138-142 | profiles run one after another compose |
| `Settings.JobFor` | src/UploadedFile.php:307-317 | naming uses the configured location and template, the client extension, and the base name with the suffix |
| `Upload.LastImage` | src/UploadedFile.php:218-223 | the profile left in the edited copy is an image profile |
| `Upload.ImageStepOverwrites` | src/UploadedFile.php:237-249 | a later image profile overwrites an earlier one, since both read the original and write the edited copy |
| `Upload.LastImageWins` | src/UploadedFile.php:218-223 | when every name is known, the edited copy ends as the last image profile's result on the original, and nothing else changes |
| `Upload.MakeTemporary` | src/UploadedFile.php:151-171 | a successful step leaves a file at `temp/token`; staging takes the upload, the editing copy leaves it alone; the queued names and the profiles are untouched |
| `Upload.MakeTemporaryOutcome` | src/UploadedFile.php:151-171 | an unsupported driver throws with nothing changed; staging succeeds exactly when the upload is there and `temp/token` is writable, then moves the uploaded content there, takes the upload and returns `temp/token`, and the original's name is recorded even when the move fails; the editing copy succeeds exactly when the staged original exists and `temp/token` is writable, then copies the original there, records the edited name and returns the ORIGINAL's path; otherwise it throws naming the original's path and changes nothing |
| `Upload.ImageStep` | src/UploadedFile.php:234-253 | `processImage` on the edited copy; stated by `Upload.ImageStepOverwrites`, `Upload.LastImageWins` and `Upload.ProcessNames` |
| `Upload.ProcessNames` | src/UploadedFile.php:218-223 | the run over profile names writes at most the edited copy; every other file is as it was |
| `Upload.Names` | src/UploadedFile.php:211 | the queued names, or the default image profiles' keys; stated by `Upload.DefaultNamesInMapOrder` and `Upload.NoProfilesNoCopy` |
| `Upload.EditedPath` | src/UploadedFile.php:390 | the final copy's source `"{temp}/{temporaryEditedName}"`, with an unset name reading `""`; stated by `Upload.SaveReturnsName` and `Upload.FreshSaveWithoutProfilesStoresNothing` |
| `Upload.Prepared` | src/UploadedFile.php:191-194 | staging followed by `processFile`; stated by `Upload.SaveReturnsName` and `Upload.SecondSaveFails` |
| `Upload.ProcessFileStep` | src/UploadedFile.php:209-227 | `processFile` leaves the upload, the memoised profiles and the original's name alone |
| `Upload.SaveStep` | src/UploadedFile.php:188-204 | a `save` that does not throw got past staging, and the upload has been taken |
| `Upload.UnknownProfileStops` | src/UploadedFile.php:218-219 | the run raises nothing exactly when every name is a profile; otherwise it raises for the first unknown name in the list |
| `Upload.NoProfilesNoCopy` | src/UploadedFile.php:211-214 | with no profiles to run, `processFile` returns at once and makes no edited copy |
| `Upload.DefaultNamesInMapOrder` | src/UploadedFile.php:211 | with nothing queued, the default image profiles run in map order |
| `Upload.ProcessFileEdits` | src/UploadedFile.php:209-227 | a normal run copies the original, leaves the last image profile's result in the copy, empties `useProfiles` and clears `temporaryEditedFile` |
| `Upload.SaveReturnsName` | src/UploadedFile.php:188-204 | `save` returns a name exactly when staging, processing and naming succeed and the final copy succeeds; the name is the first free candidate, and the destination then holds the commit source's content |
| `Upload.PreparedHoldsEditedUpload` | src/UploadedFile.php:191-194 | after staging and `processFile`, the final copy's source holds the uploaded content as the last image profile leaves it |
| `Upload.SaveStoresProcessedUpload` | src/UploadedFile.php:188-204 | when staging, the editing copy and the profiles succeed, a returned name holds the last image profile's result on the uploaded content, or the uploaded content itself when there is no image profile or the image cannot be read |
| `Upload.SaveNullIff` | src/UploadedFile.php:200-203 | `save` returns `null` exactly when naming succeeded and the final copy failed |
| `Upload.SecondSaveFails` | src/UploadedFile.php:159-162 | once a save has staged the upload, whatever happens after in that save, a second save fails at staging |
| `Upload.SaveKeepsProfiles` | src/UploadedFile.php:188-204 | `save` leaves the memoised profiles, `editing` included, as they were |
| `Upload.FreshSaveWithoutProfilesStoresNothing` | src/UploadedFile.php:390 | on a fresh session with no profiles to run, the final copy reads `"{temp}/"`, and the upload is not stored |
| `Upload.UploadedFile.constructor` | src/UploadedFile.php:123-133 | a session holds the incoming file; nothing is queued, memoised or staged |
| `Upload.UploadedFile.Profile` | src/UploadedFile.php:398-403 | `profile($name)` appends exactly `name` to `useProfiles` and changes nothing else |
| `Upload.UploadedFile.Call` | src/UploadedFile.php:411-426 | `__call` stores the memoised profiles with the operation set on `editing`, and appends `editing` to `useProfiles` on every call |
| `Upload.UploadedFile.DefaultImageProfiles` | src/UploadedFile.php:266-281 | returns the default image selection of the current profiles |
| `Upload.UploadedFile.MakeTemporaryFile` | src/UploadedFile.php:151-171 | looks up the root; moves the upload to `temp/token` and records the name, or copies the staged original to `temp/token` and returns the original's path; each failure is modelled |
| `Upload.UploadedFile.ProcessImage` | src/UploadedFile.php:234-253 | reads the original; does nothing when it is unreadable; otherwise writes the profile's result to the edited copy |
| `Upload.UploadedFile.RunNames` | src/UploadedFile.php:218-223 | the profile loop looks each name up, runs the image profiles on the edited copy, and stops at the first unknown name, as the loop specification says |
| `Upload.UploadedFile.ProcessFile` | src/UploadedFile.php:209-227 | follows `processFile` step by step, including the early return and the unknown-profile exception |
| `Upload.UploadedFile.MoveUploadedFile` | src/UploadedFile.php:382-391 | copies `temp/temporaryEditedName` to `location/dir/name`, and succeeds exactly when that source exists and the destination is writable |
| `Upload.UploadedFile.Save` | src/UploadedFile.php:188-204 | stage, process, name, copy, in that order, with the result `save` returns |
| `Upload.UploadedFile.Dispose` | src/UploadedFile.php:176-181 | one `deleteDirectory` of the configured temporary directory, which removes everything below it and nothing else (tests/DriveTest.php:80 expects exactly one call) |
| `Drive.StoreStep` | src/Drive.php:82-104 | what `store` writes and returns or throws; stated by `Drive.MissingFieldFirst`, `Drive.InvalidStoresNothing` and `Drive.StoreReturnsName` |
| `Drive.MissingFieldFirst` | src/Drive.php:84-85 | a missing field throws before validation, whatever the validator would say |
| `Drive.InvalidStoresNothing` | src/Drive.php:109-116 | a failed validation throws, and no file is written |
| `Drive.StoreReturnsName` | src/Drive.php:82-104 | `store` returns a name exactly when the file is there and valid, naming succeeds, the driver is supported and the move succeeds; the name is the first free candidate with no suffix; the processed file at `location/dir/name` is then the only change, and a failure changes nothing |
| `Drive.ImageProfiles` | src/Drive.php:161-174 | every image profile without its `type`, in map order; it is `Profiles.Selection` with no defaults list, so the selection lemmas state it |
| `Drive.Processed` | src/Drive.php:131-148 | the image profiles applied in order to a readable upload, an unreadable one unchanged; stated by `Drive.StoreReturnsName` and `Drive.OneShotMatchesSession` |
| `Drive.OneShotMatchesSession` | src/Drive.php:161-174 | for one image profile, the one-shot pipeline edits an image as the session pipeline does |
| `Drive.Drive.constructor` | src/Drive.php:63-75 | the pipeline keeps its collaborators |
| `Drive.Drive.ProcessImage` | src/Drive.php:131-148 | every image profile runs in order on one handle; an unreadable file is returned unchanged |
| `Drive.Drive.MoveUploadedFile` | src/Drive.php:274-281 | looks up the root (an unsupported driver throws), then moves the file to `location/dir/name`; a refused write throws |
| `Drive.Drive.Store` | src/Drive.php:82-104 | field check, validation, processing, naming and move, in that order |

## Left out

- **Filesystem internals.** `makeDirectory` has no effect on a map of paths.
  Laravel's and Flysystem's exceptions, path normalisation (`location//name`
  when the file name has no directory) and the adapter's behaviour on an
  existing destination are not modelled. A copy overwrites.
- **Root prefix.** Paths prefixed with the storage root (`{root}/{temp}/…`)
  are identified with the disk-relative paths (`{temp}/…`). That holds only
  for the `local` driver, whose root is the directory the disk works in. For
  `s3` the root is the bucket name and for `rackspace` the container name
  (src/UploadedFile.php:345-361). Symfony's `move` (src/UploadedFile.php:162,
  src/Drive.php:280) and the image library's `save` write to a local directory
  of that name, while the disk's `copy` and `exists`
  (src/UploadedFile.php:165, 336, 390; src/Drive.php:228) work on the remote
  store. On those drivers a session save cannot make the editing copy or the
  final copy, and `Drive::store` puts the file where the name search never
  looks, so a later upload can get the same name. The model has one disk for
  both, so `Upload.SaveReturnsName`, `Upload.SaveStoresProcessedUpload` and
  `Drive.StoreReturnsName` describe the `local` driver only.
- **Image library.** `call_user_func_array` is an uninterpreted `apply`
  function. Every exception other than `NotReadableException` is left out:
  unknown methods, bad arguments, and a failed `save` of the image. Pixels are
  not modelled. `$image->save()` decodes and re-encodes the image; the model
  treats the re-encoding as the identity, so an image profile with no
  operations leaves the bytes unchanged here but not in the source.
- **Clock and randomness.** `Carbon::now()`, `Str::random()` and `mt_rand()`
  are inputs.
- **Naming loop termination.** The do-while may loop forever, so
  `OutOfDigits` is raised when the digit sequence runs out. That bound is
  fuel: the source has no such error.
- **Concurrency.** The check-then-copy race between concurrent uploads is left
  out.
- **Clean-up timing.** Clean-up is the explicit method `Dispose`, not the
  destructor, so when PHP would run the destructor is not modelled.
- **The `temporary` key.** The code reads `drive.temporary`; the shipped
  configuration file names that key `temp` (config/drive.php:5). The model
  reads the `temporary` setting, as the code does.
- **Loose comparisons.** `$profile['type'] == 'image'`, `in_array` and the
  `switch ($disk['driver'])` (src/UploadedFile.php:351, src/Drive.php:243) are
  string equality. PHP's numeric-string comparisons (`"1" == "01"`) are not
  modelled.
- **Bytes.** PHP strings are bytes; here a string is a sequence of
  characters. `substr` and `strlen` count bytes in the source, so for a name
  with no extension `substr(…, -1)` drops one byte and can split a multibyte
  last character, while the model drops one character.
- **Fluent returns.** `profile()` and `__call` return `$this` for chaining;
  the methods here return nothing.
- **Validation.** The validation rules are an oracle. A second `store` of a
  field whose file was already moved is not modelled, because the request is
  constant.
- **`Drive::accept`.** It appears only in tests/DriveTest.php and does not
  exist in src/Drive.php. The service provider, facade and contract hold no
  logic.
- **Short client names.** `Naming.BaseName` covers names shorter than the
  extension plus its dot, as the code does; a real client extension always
  follows a dot in the name, so that case does not come up in practice.
- Upload.UploadedFile.ProcessImage: requires `temporaryEditedFile` to be set.
  `processFile` always sets it before the call. The second root lookup in
  `processImage` is not repeated, since staging already succeeded with the
  same configuration.
- Naming.TailShape: describes one draw. That tails never exceed two
  characters over a whole run follows by applying it at every step.
