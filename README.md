# Texture-set checker, modelled in Dafny

The system checks a folder of game textures. It collects the files whose name
ends with the required extension, ignoring case. It groups them into texture
sets by file name: `Rock_Normal.tga` belongs to set `Rock` with map label
`Normal`. It then judges each set against a list of required map labels and a
required square resolution.

Two implementations of that logic exist, and both are modelled:

- `modules/texture_validator.py` is the validator. It produces one verdict
  record per set: `valid` or `invalid`, a message, and optional details. A
  missing required map decides the verdict at once, and no image is opened.
- `data/Tchecker.py` is the earlier checker window. It writes display lines
  into its results list. It checks every present map even when maps are
  missing, and it flags present maps that are not required.

Modules:

- `Wrappers`: `Option`.
- `Seqs`: three stock facts about slices and concatenation.
- `PyStr`: the Python string operations used:
  - `split` on one character, `join`;
  - ASCII `lower`, `endswith`;
  - `str(int)`;
  - and `StartsWith`, used to state the shape of the display lines.
- `PyDict`: a Python dict as a list of keys in insertion order plus a map. The
  key order is part of the model. Assigning an existing key keeps its position.
- `TextureValidator`: the validator.
  - The loops are methods proved equal to specification functions:
    - `Collected` for the collector;
    - `Organize` for the grouping;
    - `Issues` and `SetVerdict` for the verdict.
  - Lemmas state what those functions promise.
- `Tchecker`: the checker window as the class `TextureCheckerTool`.
  - Its fields are `requiredResolution`, `requiredFormat` and `resultsList`.
  - Its methods append to `resultsList`.
  - They are proved equal to the line functions `SetLines` and `Report`.

Inputs the code takes from the outside world are parameters:

- The directory walk is a sequence of `TextureFile(root, name)` entries, in
  walk order.
- Opening an image is a `Decoder`, a function from a file to either
  `Decoded(width, height)` or `DecodeError(message)`.
- The folder check of `check_textures` is a boolean.
- The ticked map checkboxes are the sequence `mapsToCheck`.

The required labels are a list, so missing labels are reported in list order.
Grouping keeps insertion order: sets and labels are iterated in the order they
first occur among the files.

## Model

| member | source | states |
|---|---|---|
| TextureValidator.Collected | modules/texture_validator.py:10-16 | the files the collector keeps, in walk order: never more than were walked, and each passes `HasFormat`, the case-insensitive extension test of line 14 |
| TextureValidator.CollectTextureFiles | modules/texture_validator.py:10-16 | the collector's loop keeps exactly the walk entries `Collected` keeps, in walk order |
| TextureValidator.CollectedMembers | modules/texture_validator.py:12-15 | a file is collected iff it was walked and its lower-cased name ends with the lower-cased extension |
| TextureValidator.CollectedAppend | modules/texture_validator.py:12-16 | collection keeps walk order: collecting a concatenation concatenates the collections |
| TextureValidator.ExtractTextureInfo | modules/texture_validator.py:30-34 | the (key, label) pair of a base name; the label never contains `.`, and `ExtractTextureInfoSpec` states both branches in full |
| TextureValidator.ExtractTextureInfoSpec | modules/texture_validator.py:30-34 | no `_`: the key is the name before its first `.` and the label is "Unknown"; with `_`: the name is key + "_" + last part, the last part has no `_`, and the label is the last part before its first `.` |
| PyStr.Split | modules/texture_validator.py:31 | `split` yields one more piece than there are separators, and no piece contains the separator |
| PyStr.SplitSingle | modules/texture_validator.py:31-32 | a split has fewer than two pieces iff the separator does not occur |
| PyStr.SplitFirstIsStem | modules/texture_validator.py:33 | the first piece of a split is the text before the first separator |
| PyStr.SplitJoin | modules/texture_validator.py:31-34 | joining the pieces of a split with the separator gives back the name |
| PyStr.Join | modules/texture_validator.py:34 | `sep.join(parts)`; its properties are stated by `SplitJoin`, `JoinSnoc` and `Tchecker.JoinEndsWithLast` |
| PyStr.JoinSnoc | modules/texture_validator.py:34 | joining one more piece appends the separator and that piece |
| PyStr.LowerChar | modules/texture_validator.py:14 | ASCII upper-case letters map to their lower-case letters, other characters are unchanged |
| PyStr.Lower | modules/texture_validator.py:14 | lower-casing keeps the length, leaves no ASCII capital, turns each capital into its lower-case letter and keeps every other character |
| PyStr.EndsWith | modules/texture_validator.py:14 | `s.endswith(suffix)`: the last `len(suffix)` characters of `s` are `suffix` |
| PyStr.NatToString | modules/texture_validator.py:60-61 | `str(n)` is a non-empty string of decimal digits without a leading zero |
| PyStr.IntToString | modules/texture_validator.py:60-61 | `str(i)` is non-empty and starts with `-` iff `i` is negative; `IntToStringRoundTrip` states its digits |
| PyStr.NatToStringRoundTrip | modules/texture_validator.py:60-61 | reading the digits of `str(n)` back gives `n` |
| PyStr.IntToStringRoundTrip | modules/texture_validator.py:60-61 | `str(i)` is all digits reading back to `i` for `i >= 0`, and a minus sign followed by digits reading back to `-i` for `i < 0` |
| PyDict.Empty | modules/texture_validator.py:19 | `{}` has no keys and no entries |
| PyDict.Put | modules/texture_validator.py:27 | `d[k] = v` stores `v` under `k` and keeps every other entry; an existing key keeps its position, a new key goes last |
| PyDict.PutPut | modules/texture_validator.py:24-27 | assigning a key twice is assigning the second value once |
| PyDict.PutKeepsFirstAppearanceOrder | modules/texture_validator.py:24-27 | after each assignment the keys are the distinct keys met so far, ordered by first appearance |
| PyDict.OrderAfterMetKey | modules/texture_validator.py:27 | meeting a key again changes nothing in the order |
| PyDict.OrderAfterNewKey | modules/texture_validator.py:24-25 | meeting a new key puts it last |
| TextureValidator.SetAt | modules/texture_validator.py:24-25 | a set key not yet met has the empty set |
| TextureValidator.AddTexture | modules/texture_validator.py:24-27 | one grouping step keeps the dict of dicts well formed |
| TextureValidator.Organize | modules/texture_validator.py:18-28 | the dict of dicts the grouping loop builds, one `AddTexture` step per file; it has no more sets than files, and the `Organize*` lemmas state its keys, labels and entries |
| TextureValidator.OrganizeValid | modules/texture_validator.py:18-28 | the grouping lists every set and every label exactly once |
| TextureValidator.OrganizeKeyOrder | modules/texture_validator.py:20-27 | the set keys are exactly the distinct keys of the files, in order of first appearance |
| TextureValidator.OrganizeLabelOrder | modules/texture_validator.py:20-27 | within a set, the labels are the distinct labels of that set's files, in order of first appearance |
| TextureValidator.OrganizeLastWins | modules/texture_validator.py:27 | the file stored under (key, label) is the last file with that key and label |
| TextureValidator.AddTextureEntry | modules/texture_validator.py:24-27 | one step stores its file under its own key and label and leaves every other entry as it was |
| TextureValidator.OrganizeStoredFrom | modules/texture_validator.py:20-27 | every stored file is an input file with that key and label |
| TextureValidator.StoredIndex | modules/texture_validator.py:20-27 | gives the position of the input file stored under (key, label) |
| TextureValidator.InsertStep | modules/texture_validator.py:24-27 | the two assignments of the loop body, `{}` for a new key and then the label, make one grouping step |
| TextureValidator.OrganizeTexturesBySet | modules/texture_validator.py:18-28 | the grouping loop builds exactly `Organize(files)` |
| TextureValidator.MissingMaps | modules/texture_validator.py:44 | the missing labels are exactly the required labels absent from the set, and there are no more of them than required labels |
| TextureValidator.MissingMapsAppend | modules/texture_validator.py:44 | missing labels keep the order of the required list, repeats included: filtering `a + b` gives `a`'s missing labels, then `b`'s |
| TextureValidator.Issue | modules/texture_validator.py:55-64 | a map has no diagnostic iff it decodes to exactly res x res |
| TextureValidator.Issues | modules/texture_validator.py:54-64 | the diagnostics of the checked maps in label order, at most one per map |
| TextureValidator.IssuesEmpty | modules/texture_validator.py:54-66 | no diagnostics iff every checked map decodes to res x res |
| TextureValidator.IssuesAppend | modules/texture_validator.py:54-64 | diagnostics follow label order: checking `a + b` lists `a`'s, then `b`'s |
| TextureValidator.IssuesMembers | modules/texture_validator.py:54-64 | a string is a diagnostic iff it is the issue of some checked map |
| TextureValidator.SetVerdict | modules/texture_validator.py:43-78 | the verdict carries the set's key |
| TextureValidator.SetVerdictMissing | modules/texture_validator.py:44-52 | a missing required map gives `invalid` with "Missing maps: " and the missing labels joined by ", ", and no details |
| TextureValidator.SetVerdictValid | modules/texture_validator.py:43-78 | `valid` iff nothing is missing and every present map, required or not, decodes to res x res; then the message is "All requirements met" and there are no details |
| TextureValidator.SetVerdictIssues | modules/texture_validator.py:54-72 | nothing missing but a failing map gives `invalid`, "Some maps have issues" and non-empty details equal to the issues in label order |
| TextureValidator.MissingIgnoresDecoder | modules/texture_validator.py:47-52 | when a map is missing, the verdict does not depend on the decoder, so no file is opened |
| TextureValidator.ValidateSingleSet | modules/texture_validator.py:43-78 | the method's loop returns exactly `SetVerdict` |
| TextureValidator.ValidateTextureSets | modules/texture_validator.py:36-41 | one verdict per set, in the sets' order, each naming its set and equal to that set's `SetVerdict` |
| TextureValidator.ValidateFolder | modules/texture_validator.py:5-8 | collect, group, judge: one verdict per set of the grouped collected files, in order |
| Tchecker.HeaderLine | data/Tchecker.py:174-179 | the first line for a set: `MissingLine` (line 177) when a required map is missing, else `PresentLine` (line 179); `HeaderLineSpec` states its marks and contents |
| Tchecker.HeaderLineSpec | data/Tchecker.py:174-179 | the header starts with the check mark iff no required map is missing; otherwise it starts with the cross and ends with the missing labels joined by ", " |
| Tchecker.WarnLineShape | data/Tchecker.py:194-195 | a warning line names its map and ends with the last problem listed |
| Tchecker.MapLineMarks | data/Tchecker.py:195-200 | OK, warning and error lines carry distinct marks in the same column |
| Tchecker.Errors | data/Tchecker.py:187-192 | at most two problems, and none exactly when the map is res x res and required |
| Tchecker.MapLine | data/Tchecker.py:183-200 | the line for one present map: `ErrorLine` (line 200) on a decode failure, else `WarnLine` (line 195) listing `Errors`, whose size problem is `SizeError` (line 189), or `OkLine` (line 197); `MapLineSpec` states which kind of line it is and when |
| Tchecker.MapLineSpec | data/Tchecker.py:182-200 | a decode failure gives the error line; "OK" iff the size is right and the map is required; a size problem is listed first; a map that is not required always ends with "map not required" |
| Tchecker.JoinEndsWithLast | data/Tchecker.py:195 | a joined list ends with its last element |
| Tchecker.MapLines | data/Tchecker.py:182-200 | one line per map checked |
| Tchecker.MapLinesAt | data/Tchecker.py:182-200 | line i is the line of the i-th map |
| Tchecker.MapLinesStep | data/Tchecker.py:182-200 | checking one more map appends exactly that map's line |
| Tchecker.AfterMapLinesAppends | data/Tchecker.py:182-200 | appending map lines one at a time appends the set's map lines |
| Tchecker.AfterAllMapLines | data/Tchecker.py:176-200 | the header and then every map line, appended one at a time, append the set's lines |
| Tchecker.SetLines | data/Tchecker.py:172-200 | a set yields 1 + (number of its maps) lines, the header first: there is no short-circuit on missing maps |
| Tchecker.ReportSets | data/Tchecker.py:147-148 | the report has one header per set plus one line per map |
| Tchecker.ReportSetsStep | data/Tchecker.py:147-148 | checking one more set appends exactly that set's lines |
| Tchecker.Report | data/Tchecker.py:118-148 | the list `check_textures` leaves for a valid folder: `NoFilesLine` (line 140) when no file matches, or every set's lines in set order; `ReportShape` states its length |
| Tchecker.ReportShape | data/Tchecker.py:133-148 | no matching file gives the single "No <format> files found in the selected folder." line; otherwise one header per set plus one line per map |
| Tchecker.MapLinesAllOk | data/Tchecker.py:182-197 | when every present map is required, every map line is "OK" iff every map decodes to res x res |
| Tchecker.MapLineOk | data/Tchecker.py:188-197 | a required map gets the "OK" line exactly when it decoded to res x res |
| Tchecker.AgreesWithValidator | data/Tchecker.py:172-200 | when every present map is required, the validator's verdict is `valid` iff this checker shows the check-mark header and "OK" on every map |
| Tchecker.TextureCheckerTool.constructor | data/Tchecker.py:25-26 | resolution 512, format ".tga", an empty results list |
| Tchecker.TextureCheckerTool.CheckTextures | data/Tchecker.py:118-148 | an invalid folder changes nothing; a valid one takes the resolution and replaces the list with `Report` |
| Tchecker.TextureCheckerTool.OrganizeTexturesBySet | data/Tchecker.py:150-170 | the inline split gives the validator's key and label, and the result is `Organize(files)` whatever `mapsToCheck` is |
| Tchecker.TextureCheckerTool.CheckTextureSet | data/Tchecker.py:172-200 | appends exactly `SetLines`: the header, then one line per present map in the set's order |
| Tchecker.TextureCheckerTool.CheckMap | data/Tchecker.py:183-200 | appends exactly the line for one map |

## Left out

- The Qt window is not modelled. This covers widget construction, the
  folder browser, adding map types, the displayed results, settings and
  closing.
- The "Please select a valid folder path!" message box is not modelled. The
  folder test is a boolean parameter, and an invalid folder changes nothing.
- The checkbox state is not modelled. The ticked labels are the parameter
  `mapsToCheck`.
- The `main.py` start-up code and `modules/config_manager.py` (JSON
  settings I/O) are not part of this model.
- `os.walk` is not modelled. Its output is the input sequence of entries.
- `os.path.join` and `os.path.basename` are not modelled. A file is kept
  as its (directory, name) pair, and grouping reads the name directly.
- Image decoding with PIL and the text of its exceptions are not modelled.
  The decoder is an oracle and the error text is an opaque string.
- Non-ASCII case mapping in `str.lower` is not modelled. `Lower` maps only
  `A`-`Z`.
- TextureCheckerTool.CheckTextures: the inline collection loop of
  `check_textures` is the validator's collector method, called on the
  window's format, because both loops are the same filter.
- TextureCheckerTool.CheckTextureSet: the header is one append of the line
  `HeaderLine` chooses, not two branches with an append in each.
