/**
 * The texture-set validator: collect the files with the required extension,
 * group them into texture sets by file name, and judge each set against the
 * required map labels and the required square resolution.
 *
 * Directory walking is given as the sequence of (directory, file name) pairs
 * the walk produces; image decoding is a given function from a file to its
 * size or an error message.
 */
module TextureValidator {
  import opened Wrappers
  import opened PyStr
  import opened Seqs
  import PyDict

  /** One file met by the directory walk: its directory and its base name. */
  datatype TextureFile = TextureFile(root: string, name: string)

  /** What opening a file as an image gives: its size, or the error raised. */
  datatype DecodeResult = Decoded(width: int, height: int) | DecodeError(message: string)

  /** The image decoder, as an oracle. */
  type Decoder = TextureFile -> DecodeResult

  datatype Status = Valid | Invalid

  /** One verdict; `details` is `None` when the Python result dict has no "details" key. */
  datatype ValidationResult = ValidationResult(
    textureSet: string,
    status: Status,
    message: string,
    details: Option<seq<string>>)

  /** Map label -> file, in insertion order. */
  type TextureSet = PyDict.Dict<string, TextureFile>

  /** Set key -> texture set, in insertion order. */
  type TextureSets = PyDict.Dict<string, TextureSet>

  // ---------------------------------------------------------------------
  // Collecting files

  /** The case-insensitive extension test of the collector. */
  predicate HasFormat(name: string, format: string)
  {
    EndsWith(Lower(name), Lower(format))
  }

  /** The walk entries the collector keeps, in walk order. */
  function Collected(walk: seq<TextureFile>, format: string): (files: seq<TextureFile>)
    ensures |files| <= |walk|
    ensures forall i :: 0 <= i < |files| ==> HasFormat(files[i].name, format)
  {
    if walk == [] then []
    else
      var last := walk[|walk| - 1];
      Collected(walk[..|walk| - 1], format) + (if HasFormat(last.name, format) then [last] else [])
  }

  /** A file is collected exactly when it was walked and has the required extension. */
  lemma {:induction false} CollectedMembers(walk: seq<TextureFile>, format: string, f: TextureFile)
    ensures f in Collected(walk, format) <==> f in walk && HasFormat(f.name, format)
  {
    if walk != [] {
      CollectedMembers(walk[..|walk| - 1], format, f);
      assert walk == walk[..|walk| - 1] + [walk[|walk| - 1]];
    }
  }

  /** Collecting preserves walk order: collecting a concatenation concatenates the results. */
  lemma {:induction false} CollectedAppend(a: seq<TextureFile>, b: seq<TextureFile>, format: string)
    ensures Collected(a + b, format) == Collected(a, format) + Collected(b, format)
  {
    if b != [] {
      var b' := b[..|b| - 1];
      assert (a + b)[..|a + b| - 1] == a + b';
      CollectedAppend(a, b', format);
    } else {
      assert a + b == a;
    }
  }

  /** `_collect_texture_files`, over the entries of the walk. */
  method CollectTextureFiles(walk: seq<TextureFile>, format: string) returns (files: seq<TextureFile>)
    ensures files == Collected(walk, format)
  {
    files := [];
    var i := 0;
    while i < |walk|
      invariant 0 <= i <= |walk|
      invariant files == Collected(walk[..i], format)
    {
      TakeTake(walk, i, i + 1);
      if HasFormat(walk[i].name, format) {
        files := files + [walk[i]];
      }
      i := i + 1;
    }
    TakeAll(walk);
  }

  // ---------------------------------------------------------------------
  // Decomposing a file name

  /** `_extract_texture_info`: the set key and the map label of a base name. */
  function ExtractTextureInfo(fileName: string): (info: (string, string))
    ensures '.' !in info.1
  {
    var parts := Split(fileName, '_');
    if |parts| < 2 then (Split(fileName, '.')[0], "Unknown")
    else (Join(parts[..|parts| - 1], "_"), Split(parts[|parts| - 1], '.')[0])
  }

  /**
   * Without `_`, the key is the name up to its first `.` and the label is
   * "Unknown". With `_`, the name is key + "_" + rest where rest holds no `_`,
   * and the label is rest up to its first `.`.
   */
  lemma ExtractTextureInfoSpec(fileName: string)
    ensures var (key, mapType) := ExtractTextureInfo(fileName);
      && ('_' !in fileName ==> IsStem(key, fileName, '.') && mapType == "Unknown")
      && ('_' in fileName ==>
            && |key| < |fileName|
            && fileName[..|key|] == key
            && fileName[|key|] == '_'
            && '_' !in fileName[|key| + 1..]
            && IsStem(mapType, fileName[|key| + 1..], '.'))
  {
    var parts := Split(fileName, '_');
    SplitSingle(fileName, '_');
    if '_' !in fileName {
      SplitFirstIsStem(fileName, '.');
    } else {
      var n := |parts|;
      var key := Join(parts[..n - 1], "_");
      var rest := parts[n - 1];
      SplitJoin(fileName, '_');
      JoinSnoc(parts[..n - 1], rest, "_");
      assert parts[..n - 1] + [rest] == parts;
      assert fileName == key + "_" + rest;
      assert fileName[|key| + 1..] == rest;
      SplitFirstIsStem(rest, '.');
    }
  }

  function SetKey(f: TextureFile): string { ExtractTextureInfo(f.name).0 }

  function MapLabel(f: TextureFile): string { ExtractTextureInfo(f.name).1 }

  // ---------------------------------------------------------------------
  // Grouping files into texture sets

  /** Every texture set, and the dict of sets, is a well-formed dict. */
  ghost predicate ValidSets(sets: TextureSets)
  {
    sets.Valid() && forall k :: k in sets.entries ==> sets.entries[k].Valid()
  }

  /** The texture set stored under `key`, or `{}` when there is none yet. */
  function SetAt(sets: TextureSets, key: string): (textureSet: TextureSet)
    ensures ValidSets(sets) ==> textureSet.Valid()
    ensures key !in sets.entries ==> textureSet.keys == []
  {
    if key in sets.entries then sets.entries[key] else PyDict.Empty()
  }

  /** One step of the grouping loop: `texture_sets[key][label] = path`. */
  function AddTexture(sets: TextureSets, f: TextureFile): (r: TextureSets)
    ensures ValidSets(sets) ==> ValidSets(r)
  {
    var key := SetKey(f);
    sets.Put(key, SetAt(sets, key).Put(MapLabel(f), f))
  }

  /** The grouping of a sequence of files, as the loop builds it. */
  function Organize(files: seq<TextureFile>): (sets: TextureSets)
    ensures |sets.keys| <= |files|
  {
    if files == [] then PyDict.Empty()
    else AddTexture(Organize(files[..|files| - 1]), files[|files| - 1])
  }

  /** The grouping is a dict of dicts, each listing every key once. */
  lemma {:induction false} OrganizeValid(files: seq<TextureFile>)
    ensures ValidSets(Organize(files))
  {
    if files != [] {
      OrganizeValid(files[..|files| - 1]);
    }
  }

  /** The set keys of the files, in file order. */
  function SetKeys(files: seq<TextureFile>): (keys: seq<string>)
    ensures |keys| == |files|
  {
    if files == [] then [] else SetKeys(files[..|files| - 1]) + [SetKey(files[|files| - 1])]
  }

  /** The map labels of the files whose set key is `key`, in file order. */
  function LabelsOf(files: seq<TextureFile>, key: string): seq<string>
  {
    if files == [] then []
    else
      var last := files[|files| - 1];
      LabelsOf(files[..|files| - 1], key) + (if SetKey(last) == key then [MapLabel(last)] else [])
  }

  /** The sets are listed once each, in the order their keys first occur among the files. */
  lemma {:induction false} OrganizeKeyOrder(files: seq<TextureFile>)
    ensures PyDict.InFirstAppearanceOrder(Organize(files).keys, SetKeys(files))
  {
    if files != [] {
      var prefix, f := files[..|files| - 1], files[|files| - 1];
      var sets := Organize(prefix);
      OrganizeValid(prefix);
      OrganizeKeyOrder(prefix);
      PyDict.PutKeepsFirstAppearanceOrder(sets, SetKeys(prefix), SetKey(f),
        SetAt(sets, SetKey(f)).Put(MapLabel(f), f));
    }
  }

  /**
   * Within the set of `key`, the labels are listed once each, in the order
   * they first occur among that set's files.
   */
  lemma {:induction false} OrganizeLabelOrder(files: seq<TextureFile>, key: string)
    ensures PyDict.InFirstAppearanceOrder(SetAt(Organize(files), key).keys, LabelsOf(files, key))
  {
    if files != [] {
      var prefix, f := files[..|files| - 1], files[|files| - 1];
      var sets := Organize(prefix);
      assert Organize(files) == AddTexture(sets, f);
      OrganizeValid(prefix);
      OrganizeLabelOrder(prefix, key);
      if SetKey(f) == key {
        assert LabelsOf(files, key) == LabelsOf(prefix, key) + [MapLabel(f)];
        assert SetAt(Organize(files), key) == SetAt(sets, key).Put(MapLabel(f), f);
        PyDict.PutKeepsFirstAppearanceOrder(SetAt(sets, key), LabelsOf(prefix, key), MapLabel(f), f);
      } else {
        assert LabelsOf(files, key) == LabelsOf(prefix, key);
        assert SetAt(Organize(files), key) == SetAt(sets, key);
      }
    }
  }

  /**
   * Last file wins: the file stored under (key, label) is the last file with
   * that key and label; earlier ones are overwritten.
   */
  lemma {:induction false} OrganizeLastWins(files: seq<TextureFile>, j: nat)
    requires j < |files|
    requires forall j' :: j < j' < |files| ==>
      SetKey(files[j']) != SetKey(files[j]) || MapLabel(files[j']) != MapLabel(files[j])
    ensures var sets := Organize(files);
      && SetKey(files[j]) in sets.entries
      && MapLabel(files[j]) in sets.entries[SetKey(files[j])].entries
      && sets.entries[SetKey(files[j])].entries[MapLabel(files[j])] == files[j]
  {
    var prefix, f := files[..|files| - 1], files[|files| - 1];
    var sets := Organize(prefix);
    assert Organize(files) == AddTexture(sets, f);
    AddTextureEntry(sets, f, SetKey(files[j]), MapLabel(files[j]));
    if j < |files| - 1 {
      OrganizeLastWins(prefix, j);
      assert prefix[j] == files[j];
    }
  }

  /**
   * One grouping step stores its file under its key and label and leaves
   * every other stored file where it was.
   */
  lemma AddTextureEntry(sets: TextureSets, f: TextureFile, key: string, mapType: string)
    ensures var r := AddTexture(sets, f);
      && (key == SetKey(f) && mapType == MapLabel(f) ==>
            key in r.entries && mapType in r.entries[key].entries && r.entries[key].entries[mapType] == f)
      && (!(key == SetKey(f) && mapType == MapLabel(f)) ==>
            && (key in r.entries && mapType in r.entries[key].entries
                <==> key in sets.entries && mapType in sets.entries[key].entries)
            && (key in sets.entries && mapType in sets.entries[key].entries ==>
                  r.entries[key].entries[mapType] == sets.entries[key].entries[mapType]))
  {
  }

  /** Nothing is stored that no file put there: every entry is some file with that key and label. */
  lemma OrganizeStoredFrom(files: seq<TextureFile>, key: string, mapType: string)
    requires key in Organize(files).entries && mapType in Organize(files).entries[key].entries
    ensures exists j :: (0 <= j < |files| && SetKey(files[j]) == key && MapLabel(files[j]) == mapType
      && Organize(files).entries[key].entries[mapType] == files[j])
  {
    var j := StoredIndex(files, key, mapType);
  }

  /** The position of the file stored under (key, label). */
  lemma {:induction false} StoredIndex(files: seq<TextureFile>, key: string, mapType: string) returns (j: nat)
    requires key in Organize(files).entries && mapType in Organize(files).entries[key].entries
    ensures j < |files| && SetKey(files[j]) == key && MapLabel(files[j]) == mapType
    ensures Organize(files).entries[key].entries[mapType] == files[j]
  {
    var prefix, f := files[..|files| - 1], files[|files| - 1];
    var sets := Organize(prefix);
    assert Organize(files) == AddTexture(sets, f);
    AddTextureEntry(sets, f, key, mapType);
    if SetKey(f) == key && MapLabel(f) == mapType {
      j := |files| - 1;
    } else {
      j := StoredIndex(prefix, key, mapType);
      assert files[j] == prefix[j];
    }
  }

  /**
   * The loop body's two assignments, `texture_sets[key] = {}` when the key is
   * new and then `texture_sets[key][label] = path`, make one grouping step.
   */
  lemma InsertStep(before: TextureSets, f: TextureFile)
    ensures var key := SetKey(f);
      var sets := if key !in before.entries then before.Put(key, PyDict.Empty()) else before;
      && key in sets.entries
      && sets.Put(key, sets.entries[key].Put(MapLabel(f), f)) == AddTexture(before, f)
  {
    var key := SetKey(f);
    if key !in before.entries {
      PyDict.PutPut(before, key, PyDict.Empty(), PyDict.Empty().Put(MapLabel(f), f));
    }
  }

  /** `_organize_textures_by_set`. */
  method OrganizeTexturesBySet(files: seq<TextureFile>) returns (sets: TextureSets)
    ensures sets == Organize(files)
  {
    sets := PyDict.Empty();
    var i := 0;
    while i < |files|
      invariant 0 <= i <= |files|
      invariant sets == Organize(files[..i])
    {
      TakeTake(files, i, i + 1);
      InsertStep(sets, files[i]);
      var (key, mapType) := ExtractTextureInfo(files[i].name);
      if key !in sets.entries {
        sets := sets.Put(key, PyDict.Empty());
      }
      sets := sets.Put(key, sets.entries[key].Put(mapType, files[i]));
      i := i + 1;
    }
    TakeAll(files);
  }

  // ---------------------------------------------------------------------
  // Judging a texture set

  /** The required labels absent from the set, in required order. */
  function MissingMaps(required: seq<string>, textureSet: TextureSet): (missing: seq<string>)
    ensures |missing| <= |required|
    ensures forall m :: m in missing <==> m in required && m !in textureSet.entries
  {
    if required == [] then []
    else
      (if required[0] in textureSet.entries then [] else [required[0]]) + MissingMaps(required[1..], textureSet)
  }

  /**
   * Missing labels keep the order of the required list, repeats included:
   * filtering a + b gives a's missing labels, then b's.
   */
  lemma {:induction false} MissingMapsAppend(a: seq<string>, b: seq<string>, textureSet: TextureSet)
    ensures MissingMaps(a + b, textureSet) == MissingMaps(a, textureSet) + MissingMaps(b, textureSet)
  {
    if a == [] {
      assert a + b == b;
    } else {
      assert (a + b)[1..] == a[1..] + b;
      MissingMapsAppend(a[1..], b, textureSet);
    }
  }

  /** A map passes when it decodes to exactly res x res. */
  predicate SizeOk(d: DecodeResult, res: int)
  {
    d.Decoded? && d.width == res && d.height == res
  }

  /** Every map present in the set, required or not, passes. */
  ghost predicate AllMapsOk(textureSet: TextureSet, res: int, decode: Decoder)
  {
    forall mapType :: mapType in textureSet.entries ==> SizeOk(decode(textureSet.entries[mapType]), res)
  }

  /** The diagnostic for one map, if it has an issue. */
  function Issue(mapType: string, d: DecodeResult, res: int): (r: Option<string>)
    ensures r.None? <==> SizeOk(d, res)
  {
    match d
    case Decoded(width, height) =>
      if width != res || height != res then
        Some(mapType + ": Incorrect size " + IntToString(width) + "x" + IntToString(height)
             + " (expected " + IntToString(res) + "x" + IntToString(res) + ")")
      else None
    case DecodeError(message) =>
      Some(mapType + ": Error loading file - " + message)
  }

  /** The diagnostics of the maps `labels` of the set, in that order. */
  function Issues(textureSet: TextureSet, labels: seq<string>, res: int, decode: Decoder): (details: seq<string>)
    requires forall i :: 0 <= i < |labels| ==> labels[i] in textureSet.entries
    ensures |details| <= |labels|
  {
    if labels == [] then []
    else
      var last := labels[|labels| - 1];
      Issues(textureSet, labels[..|labels| - 1], res, decode)
        + match Issue(last, decode(textureSet.entries[last]), res)
          case Some(detail) => [detail]
          case None => []
  }

  /** No diagnostics exactly when every map checked passes. */
  lemma {:induction false} IssuesEmpty(textureSet: TextureSet, labels: seq<string>, res: int, decode: Decoder)
    requires forall i :: 0 <= i < |labels| ==> labels[i] in textureSet.entries
    ensures Issues(textureSet, labels, res, decode) == []
        <==> forall l :: l in labels ==> SizeOk(decode(textureSet.entries[l]), res)
  {
    if labels != [] {
      var prefix := labels[..|labels| - 1];
      IssuesEmpty(textureSet, prefix, res, decode);
      assert labels == prefix + [labels[|labels| - 1]];
    }
  }

  /** Diagnostics follow label order: checking a + b lists a's issues, then b's. */
  lemma {:induction false} IssuesAppend(textureSet: TextureSet, a: seq<string>, b: seq<string>, res: int, decode: Decoder)
    requires forall i :: 0 <= i < |a| ==> a[i] in textureSet.entries
    requires forall i :: 0 <= i < |b| ==> b[i] in textureSet.entries
    ensures forall i :: 0 <= i < |a + b| ==> (a + b)[i] in textureSet.entries
    ensures Issues(textureSet, a + b, res, decode) == Issues(textureSet, a, res, decode) + Issues(textureSet, b, res, decode)
  {
    if b == [] {
      assert a + b == a;
    } else {
      var b' := b[..|b| - 1];
      assert (a + b)[..|a + b| - 1] == a + b';
      IssuesAppend(textureSet, a, b', res, decode);
    }
  }

  /** Each diagnostic is the issue of some checked map, and each map's issue is listed. */
  lemma {:induction false} IssuesMembers(textureSet: TextureSet, labels: seq<string>, res: int, decode: Decoder, detail: string)
    requires forall i :: 0 <= i < |labels| ==> labels[i] in textureSet.entries
    ensures detail in Issues(textureSet, labels, res, decode)
        <==> exists l :: l in labels && Issue(l, decode(textureSet.entries[l]), res) == Some(detail)
  {
    if labels != [] {
      var prefix, last := labels[..|labels| - 1], labels[|labels| - 1];
      assert labels == prefix + [last];
      IssuesMembers(textureSet, prefix, res, decode, detail);
      var tail := Issues(textureSet, labels, res, decode)[|Issues(textureSet, prefix, res, decode)|..];
      assert Issues(textureSet, labels, res, decode) == Issues(textureSet, prefix, res, decode) + tail;
      assert detail in tail <==> Issue(last, decode(textureSet.entries[last]), res) == Some(detail);
      if detail in Issues(textureSet, labels, res, decode) {
        if detail in tail {
          assert last in labels;
        } else {
          var l :| l in prefix && Issue(l, decode(textureSet.entries[l]), res) == Some(detail);
          assert l in labels;
        }
      }
      if l :| l in labels && Issue(l, decode(textureSet.entries[l]), res) == Some(detail) {
        if l != last {
          assert l in prefix;
        }
      }
    }
  }

  /** `_validate_single_set`, as a value. */
  function SetVerdict(baseName: string, textureSet: TextureSet, required: seq<string>, res: int, decode: Decoder)
    : (r: ValidationResult)
    requires textureSet.Listed()
    ensures r.textureSet == baseName
  {
    var missing := MissingMaps(required, textureSet);
    if missing != [] then
      ValidationResult(baseName, Invalid, "Missing maps: " + Join(missing, ", "), None)
    else
      var details := Issues(textureSet, textureSet.keys, res, decode);
      if details != [] then
        ValidationResult(baseName, Invalid, "Some maps have issues", Some(details))
      else
        ValidationResult(baseName, Valid, "All requirements met", None)
  }

  /** A missing required map makes the set invalid, with the missing labels and no details. */
  lemma SetVerdictMissing(baseName: string, textureSet: TextureSet, required: seq<string>, res: int, decode: Decoder)
    requires textureSet.Listed() && MissingMaps(required, textureSet) != []
    ensures var r := SetVerdict(baseName, textureSet, required, res, decode);
      && r.textureSet == baseName
      && r.status == Invalid
      && r.message == "Missing maps: " + Join(MissingMaps(required, textureSet), ", ")
      && r.details == None
  {
  }

  /**
   * A set is valid exactly when no required map is missing and every present
   * map decodes to res x res; a valid set carries no details.
   */
  lemma SetVerdictValid(baseName: string, textureSet: TextureSet, required: seq<string>, res: int, decode: Decoder)
    requires textureSet.Listed()
    ensures var r := SetVerdict(baseName, textureSet, required, res, decode);
      && r.textureSet == baseName
      && (r.status == Valid <==> MissingMaps(required, textureSet) == [] && AllMapsOk(textureSet, res, decode))
      && (r.status == Valid ==> r.message == "All requirements met" && r.details == None)
  {
    IssuesEmpty(textureSet, textureSet.keys, res, decode);
  }

  /**
   * With nothing missing but some map failing, the details are the issues of
   * the present maps, in label order, and there is at least one.
   */
  lemma SetVerdictIssues(baseName: string, textureSet: TextureSet, required: seq<string>, res: int, decode: Decoder)
    requires textureSet.Listed()
    requires MissingMaps(required, textureSet) == [] && !AllMapsOk(textureSet, res, decode)
    ensures var r := SetVerdict(baseName, textureSet, required, res, decode);
      && r.textureSet == baseName
      && r.status == Invalid
      && r.message == "Some maps have issues"
      && r.details == Some(Issues(textureSet, textureSet.keys, res, decode))
      && r.details.value != []
  {
    IssuesEmpty(textureSet, textureSet.keys, res, decode);
  }

  /** A set with a missing map is judged without decoding any file. */
  lemma MissingIgnoresDecoder(baseName: string, textureSet: TextureSet, required: seq<string>, res: int,
                              decode1: Decoder, decode2: Decoder)
    requires textureSet.Listed() && MissingMaps(required, textureSet) != []
    ensures SetVerdict(baseName, textureSet, required, res, decode1) == SetVerdict(baseName, textureSet, required, res, decode2)
  {
  }

  /** `_validate_single_set`. */
  method ValidateSingleSet(baseName: string, textureSet: TextureSet, required: seq<string>, res: int, decode: Decoder)
    returns (result: ValidationResult)
    requires textureSet.Listed()
    ensures result == SetVerdict(baseName, textureSet, required, res, decode)
  {
    var missing := MissingMaps(required, textureSet);
    var details := [];
    if missing != [] {
      return ValidationResult(baseName, Invalid, "Missing maps: " + Join(missing, ", "), None);
    }
    var i := 0;
    while i < |textureSet.keys|
      invariant 0 <= i <= |textureSet.keys|
      invariant details == Issues(textureSet, textureSet.keys[..i], res, decode)
    {
      var mapType := textureSet.keys[i];
      assert textureSet.keys[..i + 1] == textureSet.keys[..i] + [mapType];
      match decode(textureSet.entries[mapType]) {
        case Decoded(width, height) =>
          if width != res || height != res {
            details := details + [mapType + ": Incorrect size " + IntToString(width) + "x" + IntToString(height)
                                  + " (expected " + IntToString(res) + "x" + IntToString(res) + ")"];
          }
        case DecodeError(message) =>
          details := details + [mapType + ": Error loading file - " + message];
      }
      i := i + 1;
    }
    TakeAll(textureSet.keys);
    if details != [] {
      return ValidationResult(baseName, Invalid, "Some maps have issues", Some(details));
    }
    return ValidationResult(baseName, Valid, "All requirements met", None);
  }

  /** `_validate_texture_sets`: one verdict per set, in the sets' order. */
  method ValidateTextureSets(sets: TextureSets, required: seq<string>, res: int, decode: Decoder)
    returns (results: seq<ValidationResult>)
    requires ValidSets(sets)
    ensures |results| == |sets.keys|
    ensures forall i :: 0 <= i < |results| ==>
      && sets.keys[i] in sets.entries
      && results[i].textureSet == sets.keys[i]
      && results[i] == SetVerdict(sets.keys[i], sets.entries[sets.keys[i]], required, res, decode)
  {
    results := [];
    var i := 0;
    while i < |sets.keys|
      invariant 0 <= i <= |sets.keys|
      invariant |results| == i
      invariant forall j :: 0 <= j < i ==>
        && sets.keys[j] in sets.entries
        && results[j] == SetVerdict(sets.keys[j], sets.entries[sets.keys[j]], required, res, decode)
    {
      var baseName := sets.keys[i];
      assert baseName in sets.keys;
      var result := ValidateSingleSet(baseName, sets.entries[baseName], required, res, decode);
      results := results + [result];
      i := i + 1;
    }
  }

  /** `validate_folder`: collect, group, then judge every textureSet. */
  method ValidateFolder(walk: seq<TextureFile>, required: seq<string>, res: int, format: string, decode: Decoder)
    returns (results: seq<ValidationResult>)
    ensures var sets := Organize(Collected(walk, format));
      && ValidSets(sets)
      && |results| == |sets.keys|
      && forall i :: 0 <= i < |results| ==>
        && sets.keys[i] in sets.entries
        && results[i] == SetVerdict(sets.keys[i], sets.entries[sets.keys[i]], required, res, decode)
  {
    var files := CollectTextureFiles(walk, format);
    var sets := OrganizeTexturesBySet(files);
    OrganizeValid(files);
    results := ValidateTextureSets(sets, required, res, decode);
  }
}
