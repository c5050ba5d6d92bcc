/**
 * The earlier, inline texture checker: a window object that groups the files
 * the same way but writes display lines into its results list. It does not
 * stop at missing maps, and it flags present maps that are not required.
 */
module Tchecker {
  import opened PyStr
  import opened Seqs
  import PyDict
  import opened TextureValidator

  /** The header shown when some required maps are missing. */
  function MissingLine(baseName: string, missing: seq<string>): string
  {
    "❌ " + baseName + ": Missing maps - " + Join(missing, ", ")
  }

  /** The header shown when every required map is present. */
  function PresentLine(baseName: string): string
  {
    "✅ " + baseName + ": All required maps present"
  }

  /** The first line for a set: the missing required labels, or that none is missing. */
  function HeaderLine(baseName: string, textureSet: TextureSet, required: seq<string>): string
  {
    var missing := MissingMaps(required, textureSet);
    if missing != [] then MissingLine(baseName, missing) else PresentLine(baseName)
  }

  /**
   * The header starts with the check mark exactly when no required map is
   * missing; otherwise it starts with the cross and ends with the missing labels.
   */
  lemma HeaderLineSpec(baseName: string, textureSet: TextureSet, required: seq<string>)
    ensures var line, missing := HeaderLine(baseName, textureSet, required), MissingMaps(required, textureSet);
      && (StartsWith(line, "✅") <==> missing == [])
      && (missing != [] ==> line[0] == '❌' && EndsWith(line, Join(missing, ", ")))
  {
    var line, missing := HeaderLine(baseName, textureSet, required), MissingMaps(required, textureSet);
    if missing != [] {
      var tail := Join(missing, ", ");
      assert line == ("❌ " + baseName + ": Missing maps - ") + tail;
      assert line[|line| - |tail|..] == tail;
    } else {
      assert line[..1] == "✅";
    }
  }

  /** The line of a map that decoded to the right size and is required. */
  function OkLine(mapType: string): string
  {
    "  ✓ " + mapType + ": OK"
  }

  /** The line of a decoded map with problems, listing them. */
  function WarnLine(mapType: string, errors: seq<string>): string
  {
    "  ⚠ " + mapType + ": " + Join(errors, ", ")
  }

  /** A problem line names its map and ends with the last problem listed. */
  lemma WarnLineShape(mapType: string, errors: seq<string>)
    requires |errors| >= 1
    ensures var line := WarnLine(mapType, errors);
      && StartsWith(line, "  ⚠ " + mapType + ": ")
      && line[2] == '⚠'
      && EndsWith(line, errors[|errors| - 1])
  {
    var head := "  ⚠ " + mapType + ": ";
    var line := WarnLine(mapType, errors);
    JoinEndsWithLast(errors, ", ");
    assert line[..|head|] == head;
    assert line[2] == head[2];
    assert line[|line| - |errors[|errors| - 1]|..] == Join(errors, ", ")[|Join(errors, ", ")| - |errors[|errors| - 1]|..];
  }

  /** The line of a map that could not be decoded. */
  function ErrorLine(mapType: string, message: string): string
  {
    "  ❗ " + mapType + ": Error loading file - " + message
  }

  /** The three kinds of map line carry different marks in the same column. */
  lemma MapLineMarks(mapType: string, message: string, errors: seq<string>)
    ensures |OkLine(mapType)| > 2 && OkLine(mapType)[2] == '✓'
    ensures |ErrorLine(mapType, message)| > 2 && ErrorLine(mapType, message)[2] == '❗'
    ensures |WarnLine(mapType, errors)| > 2 && WarnLine(mapType, errors)[2] == '⚠'
  {
  }

  /** The size problem of a decoded map, as listed on its line. */
  function SizeError(width: int, height: int, res: int): string
  {
    "size " + IntToString(width) + "x" + IntToString(height)
      + " (expected " + IntToString(res) + "x" + IntToString(res) + ")"
  }

  /** The problems of a decoded map: a wrong size first, then "map not required". */
  function Errors(mapType: string, width: int, height: int, required: seq<string>, res: int): (errors: seq<string>)
    ensures |errors| <= 2
    ensures errors == [] <==> width == res && height == res && mapType in required
  {
    (if width != res || height != res then [SizeError(width, height, res)] else [])
      + (if mapType !in required then ["map not required"] else [])
  }

  /** The line for one present map, given what decoding it gave. */
  function MapLine(mapType: string, d: DecodeResult, required: seq<string>, res: int): string
  {
    match d
    case DecodeError(message) => ErrorLine(mapType, message)
    case Decoded(width, height) =>
      var errors := Errors(mapType, width, height, required, res);
      if errors != [] then WarnLine(mapType, errors) else OkLine(mapType)
  }

  /**
   * A map that fails to decode gets the error line. A map gets the "OK" line
   * exactly when it decoded to res x res and is required. A wrongly sized map
   * lists the size problem first; a map that is not required always ends its
   * line with "map not required", whatever its size.
   */
  lemma MapLineSpec(mapType: string, d: DecodeResult, required: seq<string>, res: int)
    ensures var line := MapLine(mapType, d, required, res);
      && (d.DecodeError? ==> line == ErrorLine(mapType, d.message))
      && (line == OkLine(mapType) <==> SizeOk(d, res) && mapType in required)
      && (d.Decoded? && !SizeOk(d, res) ==>
            && line == WarnLine(mapType, Errors(mapType, d.width, d.height, required, res))
            && Errors(mapType, d.width, d.height, required, res)[0] == SizeError(d.width, d.height, res))
      && (d.Decoded? && mapType !in required ==>
            StartsWith(line, "  ⚠ " + mapType + ": ") && EndsWith(line, "map not required"))
  {
    var line := MapLine(mapType, d, required, res);
    if d.Decoded? {
      var errors := Errors(mapType, d.width, d.height, required, res);
      MapLineMarks(mapType, "", errors);
      assert errors == [] <==> SizeOk(d, res) && mapType in required;
      if errors != [] {
        WarnLineShape(mapType, errors);
      }
    } else {
      MapLineMarks(mapType, d.message, []);
    }
  }

  /** The last piece of a non-empty join ends it. */
  lemma {:induction false} JoinEndsWithLast(parts: seq<string>, sep: string)
    requires |parts| >= 1
    ensures EndsWith(Join(parts, sep), parts[|parts| - 1])
  {
    if |parts| > 1 {
      JoinEndsWithLast(parts[1..], sep);
      var tail := Join(parts[1..], sep);
      var whole := parts[0] + sep + tail;
      assert whole[|whole| - |tail|..] == tail;
      assert whole[|whole| - |parts[|parts| - 1]|..] == tail[|tail| - |parts[|parts| - 1]|..];
    }
  }

  /** The lines for the maps `labels` of a set, one per map, in that order. */
  function MapLines(textureSet: TextureSet, labels: seq<string>, required: seq<string>, res: int, decode: Decoder)
    : (lines: seq<string>)
    requires forall i :: 0 <= i < |labels| ==> labels[i] in textureSet.entries
    ensures |lines| == |labels|
  {
    if labels == [] then []
    else
      var last := labels[|labels| - 1];
      MapLines(textureSet, labels[..|labels| - 1], required, res, decode)
        + [MapLine(last, decode(textureSet.entries[last]), required, res)]
  }

  /** Line i is the line of map i: one line per map, in the set's order. */
  lemma {:induction false} MapLinesAt(textureSet: TextureSet, labels: seq<string>, required: seq<string>, res: int,
                                      decode: Decoder)
    requires forall i :: 0 <= i < |labels| ==> labels[i] in textureSet.entries
    ensures forall i :: 0 <= i < |labels| ==>
      MapLines(textureSet, labels, required, res, decode)[i]
        == MapLine(labels[i], decode(textureSet.entries[labels[i]]), required, res)
  {
    if labels != [] {
      var prefix := labels[..|labels| - 1];
      MapLinesAt(textureSet, prefix, required, res, decode);
      assert forall i :: 0 <= i < |prefix| ==> prefix[i] == labels[i];
    }
  }

  /** Checking one more map of the set appends exactly that map's line. */
  lemma MapLinesStep(textureSet: TextureSet, n: nat, required: seq<string>, res: int, decode: Decoder)
    requires textureSet.Listed() && n < |textureSet.keys|
    ensures textureSet.keys[n] in textureSet.entries
    ensures MapLines(textureSet, textureSet.keys[..n + 1], required, res, decode)
      == MapLines(textureSet, textureSet.keys[..n], required, res, decode)
         + [MapLine(textureSet.keys[n], decode(textureSet.entries[textureSet.keys[n]]), required, res)]
  {
    assert textureSet.keys[n] in textureSet.keys;
    TakeTake(textureSet.keys, n, n + 1);
  }

  /**
   * `start` with the lines of the set's first `n` maps appended, one at a time.
   * These are the lines of `MapLines` again, built the way the loop of
   * `check_texture_set` builds them: as an invariant it is much cheaper for the
   * solver than `start + MapLines(...)`, and `AfterMapLinesAppends` ties the two.
   */
  function AfterMapLines(start: seq<string>, textureSet: TextureSet, n: nat, required: seq<string>, res: int,
                         decode: Decoder): seq<string>
    requires textureSet.Listed() && n <= |textureSet.keys|
  {
    if n == 0 then start
    else
      var mapType := textureSet.keys[n - 1];
      assert mapType in textureSet.keys;
      AfterMapLines(start, textureSet, n - 1, required, res, decode)
        + [MapLine(mapType, decode(textureSet.entries[mapType]), required, res)]
  }

  /** Appending the lines one at a time appends the set's map lines. */
  lemma {:induction false} AfterMapLinesAppends(start: seq<string>, textureSet: TextureSet, n: nat,
                                                required: seq<string>, res: int, decode: Decoder)
    requires textureSet.Listed() && n <= |textureSet.keys|
    ensures AfterMapLines(start, textureSet, n, required, res, decode)
      == start + MapLines(textureSet, textureSet.keys[..n], required, res, decode)
  {
    if n > 0 {
      AfterMapLinesAppends(start, textureSet, n - 1, required, res, decode);
      MapLinesStep(textureSet, n - 1, required, res, decode);
      var last := textureSet.keys[n - 1];
      ConcatAssoc(start, MapLines(textureSet, textureSet.keys[..n - 1], required, res, decode),
                  [MapLine(last, decode(textureSet.entries[last]), required, res)]);
    }
  }

  /** Appending the header and then every map line, one at a time, appends the set's lines. */
  lemma AfterAllMapLines(start: seq<string>, baseName: string, textureSet: TextureSet, required: seq<string>, res: int,
                         decode: Decoder)
    requires textureSet.Listed()
    ensures AfterMapLines(start + [HeaderLine(baseName, textureSet, required)], textureSet, |textureSet.keys|, required,
                          res, decode)
      == start + SetLines(baseName, textureSet, required, res, decode)
  {
    var header := [HeaderLine(baseName, textureSet, required)];
    AfterMapLinesAppends(start + header, textureSet, |textureSet.keys|, required, res, decode);
    TakeAll(textureSet.keys);
    ConcatAssoc(start, header, MapLines(textureSet, textureSet.keys, required, res, decode));
  }

  /** All lines for one set: the header, then one line per present map. */
  function SetLines(baseName: string, textureSet: TextureSet, required: seq<string>, res: int, decode: Decoder)
    : (lines: seq<string>)
    requires textureSet.Listed()
    ensures |lines| == 1 + |textureSet.keys|
    ensures lines[0] == HeaderLine(baseName, textureSet, required)
  {
    [HeaderLine(baseName, textureSet, required)] + MapLines(textureSet, textureSet.keys, required, res, decode)
  }

  /** How many maps the sets `keys` hold in all. */
  function MapCount(sets: TextureSets, keys: seq<string>): nat
    requires ValidSets(sets) && forall i :: 0 <= i < |keys| ==> keys[i] in sets.entries
  {
    if keys == [] then 0
    else MapCount(sets, keys[..|keys| - 1]) + |sets.entries[keys[|keys| - 1]].keys|
  }

  /** The lines for the sets `keys`, set after set. */
  function ReportSets(sets: TextureSets, keys: seq<string>, required: seq<string>, res: int, decode: Decoder)
    : (lines: seq<string>)
    requires ValidSets(sets) && forall i :: 0 <= i < |keys| ==> keys[i] in sets.entries
    ensures |lines| == |keys| + MapCount(sets, keys)
  {
    if keys == [] then []
    else
      var last := keys[|keys| - 1];
      ReportSets(sets, keys[..|keys| - 1], required, res, decode)
        + SetLines(last, sets.entries[last], required, res, decode)
  }

  /** Checking one more set appends exactly that set's lines. */
  lemma ReportSetsStep(sets: TextureSets, n: nat, required: seq<string>, res: int, decode: Decoder)
    requires ValidSets(sets) && n < |sets.keys|
    ensures sets.keys[n] in sets.entries
    ensures ReportSets(sets, sets.keys[..n + 1], required, res, decode)
      == ReportSets(sets, sets.keys[..n], required, res, decode)
         + SetLines(sets.keys[n], sets.entries[sets.keys[n]], required, res, decode)
  {
    assert sets.keys[n] in sets.keys;
    TakeTake(sets.keys, n, n + 1);
  }

  /** The line shown when the walk found no file with the extension. */
  function NoFilesLine(format: string): string
  {
    "No " + format + " files found in the selected folder."
  }

  /** What `check_textures` leaves in the results list for a valid folder. */
  function Report(walk: seq<TextureFile>, required: seq<string>, res: int, format: string, decode: Decoder)
    : seq<string>
  {
    var files := Collected(walk, format);
    if files == [] then [NoFilesLine(format)]
    else
      var sets := Organize(files);
      OrganizeValid(files);
      ReportSets(sets, sets.keys, required, res, decode)
  }

  /**
   * With no matching file the report is the single "No ... files" line;
   * otherwise it has one header per set and one line per present map.
   */
  lemma ReportShape(walk: seq<TextureFile>, required: seq<string>, res: int, format: string, decode: Decoder)
    ensures Collected(walk, format) == [] ==> Report(walk, required, res, format, decode) == [NoFilesLine(format)]
    ensures var sets := Organize(Collected(walk, format));
      && ValidSets(sets)
      && (Collected(walk, format) != [] ==>
            |Report(walk, required, res, format, decode)| == |sets.keys| + MapCount(sets, sets.keys))
  {
    OrganizeValid(Collected(walk, format));
  }

  /** A required map gets the "OK" line exactly when it decoded to res x res. */
  lemma MapLineOk(mapType: string, d: DecodeResult, required: seq<string>, res: int)
    requires mapType in required
    ensures MapLine(mapType, d, required, res) == OkLine(mapType) <==> SizeOk(d, res)
  {
    MapLineSpec(mapType, d, required, res);
  }

  /** With every present map required, every map gets the "OK" line exactly when every map passes. */
  lemma MapLinesAllOk(baseName: string, textureSet: TextureSet, required: seq<string>, res: int, decode: Decoder)
    requires textureSet.Listed()
    requires forall l :: l in textureSet.entries ==> l in required
    ensures var lines := SetLines(baseName, textureSet, required, res, decode);
      (forall i :: 0 <= i < |textureSet.keys| ==> lines[i + 1] == OkLine(textureSet.keys[i]))
      <==> AllMapsOk(textureSet, res, decode)
  {
    var keys := textureSet.keys;
    assert forall i :: 0 <= i < |keys| ==> keys[i] in keys;
    var lines := SetLines(baseName, textureSet, required, res, decode);
    var mapLines := MapLines(textureSet, keys, required, res, decode);
    MapLinesAt(textureSet, keys, required, res, decode);
    forall i | 0 <= i < |keys|
      ensures lines[i + 1] == OkLine(keys[i]) <==> SizeOk(decode(textureSet.entries[keys[i]]), res)
    {
      assert lines[i + 1] == mapLines[i];
      assert keys[i] in required;
      MapLineOk(keys[i], decode(textureSet.entries[keys[i]]), required, res);
    }
    if forall i :: 0 <= i < |keys| ==> lines[i + 1] == OkLine(keys[i]) {
      forall l | l in textureSet.entries ensures SizeOk(decode(textureSet.entries[l]), res) {
        var i :| 0 <= i < |keys| && keys[i] == l;
        assert lines[i + 1] == OkLine(keys[i]);
      }
    }
  }

  /**
   * The two checkers agree on the sets where every present map is required:
   * the validator says "valid" exactly when this checker shows the "all
   * present" header and an "OK" line for every map.
   */
  lemma AgreesWithValidator(baseName: string, textureSet: TextureSet, required: seq<string>, res: int, decode: Decoder)
    requires textureSet.Listed()
    requires forall l :: l in textureSet.entries ==> l in required
    ensures var lines := SetLines(baseName, textureSet, required, res, decode);
      SetVerdict(baseName, textureSet, required, res, decode).status == Valid
      <==> StartsWith(lines[0], "✅") && forall i :: 0 <= i < |textureSet.keys| ==> lines[i + 1] == OkLine(textureSet.keys[i])
  {
    var lines := SetLines(baseName, textureSet, required, res, decode);
    var keys := textureSet.keys;
    var noneMissing := MissingMaps(required, textureSet) == [];
    assert (StartsWith(lines[0], "✅") <==> noneMissing) by {
      HeaderLineSpec(baseName, textureSet, required);
    }
    assert (forall i :: 0 <= i < |keys| ==> lines[i + 1] == OkLine(keys[i])) <==> AllMapsOk(textureSet, res, decode) by {
      MapLinesAllOk(baseName, textureSet, required, res, decode);
    }
    assert (SetVerdict(baseName, textureSet, required, res, decode).status == Valid
            <==> noneMissing && AllMapsOk(textureSet, res, decode)) by {
      SetVerdictValid(baseName, textureSet, required, res, decode);
    }
  }

  /** The checker window: its settings and its list of result lines. */
  class TextureCheckerTool {
    var requiredResolution: int
    var requiredFormat: string
    var resultsList: seq<string>

    constructor ()
      ensures requiredResolution == 512 && requiredFormat == ".tga" && resultsList == []
    {
      requiredResolution := 512;
      requiredFormat := ".tga";
      resultsList := [];
    }

    /**
     * `check_textures`: an invalid folder leaves everything as it was; a valid
     * one takes the resolution setting, clears the list and fills it with the report.
     */
    method CheckTextures(folderIsDir: bool, walk: seq<TextureFile>, mapsToCheck: seq<string>,
                         resolution: int, decode: Decoder)
      modifies this`requiredResolution, this`resultsList
      ensures !folderIsDir ==> resultsList == old(resultsList) && requiredResolution == old(requiredResolution)
      ensures folderIsDir ==>
        && requiredResolution == resolution
        && resultsList == Report(walk, mapsToCheck, resolution, requiredFormat, decode)
    {
      if !folderIsDir {
        return;
      }
      requiredResolution := resolution;
      resultsList := [];
      // The collection loop is the same filter as the validator's.
      var textureFiles := CollectTextureFiles(walk, requiredFormat);
      if textureFiles == [] {
        resultsList := resultsList + [NoFilesLine(requiredFormat)];
        return;
      }
      var textureSets := OrganizeTexturesBySet(textureFiles, mapsToCheck);
      OrganizeValid(textureFiles);
      var j := 0;
      while j < |textureSets.keys|
        invariant 0 <= j <= |textureSets.keys|
        invariant requiredResolution == resolution
        invariant resultsList == ReportSets(textureSets, textureSets.keys[..j], mapsToCheck, resolution, decode)
      {
        var baseName := textureSets.keys[j];
        ReportSetsStep(textureSets, j, mapsToCheck, resolution, decode);
        CheckTextureSet(baseName, textureSets.entries[baseName], mapsToCheck, decode);
        j := j + 1;
      }
      TakeAll(textureSets.keys);
    }

    /** `organize_textures_by_set`: the same grouping; `mapsToCheck` plays no part. */
    method OrganizeTexturesBySet(textureFiles: seq<TextureFile>, mapsToCheck: seq<string>)
      returns (textureSets: TextureSets)
      ensures textureSets == Organize(textureFiles)
    {
      textureSets := PyDict.Empty();
      var i := 0;
      while i < |textureFiles|
        invariant 0 <= i <= |textureFiles|
        invariant textureSets == Organize(textureFiles[..i])
      {
        TakeTake(textureFiles, i, i + 1);
        var filePath := textureFiles[i];
        InsertStep(textureSets, filePath);
        var parts := Split(filePath.name, '_');
        var baseName, mapType;
        if |parts| < 2 {
          baseName := Split(filePath.name, '.')[0];
          mapType := "Unknown";
        } else {
          baseName := Join(parts[..|parts| - 1], "_");
          mapType := Split(parts[|parts| - 1], '.')[0];
        }
        assert (baseName, mapType) == ExtractTextureInfo(filePath.name);
        if baseName !in textureSets.entries {
          textureSets := textureSets.Put(baseName, PyDict.Empty());
        }
        textureSets := textureSets.Put(baseName, textureSets.entries[baseName].Put(mapType, filePath));
        i := i + 1;
      }
      TakeAll(textureFiles);
    }

    /** `check_texture_set`: appends the header, then one line per present map. */
    method CheckTextureSet(baseName: string, textureSet: TextureSet, requiredMaps: seq<string>, decode: Decoder)
      requires textureSet.Listed()
      modifies this`resultsList
      ensures resultsList == old(resultsList) + SetLines(baseName, textureSet, requiredMaps, requiredResolution, decode)
    {
      var res := requiredResolution;
      var missingMaps := MissingMaps(requiredMaps, textureSet);
      resultsList := resultsList + [if missingMaps != [] then MissingLine(baseName, missingMaps) else PresentLine(baseName)];
      var i := 0;
      while i < |textureSet.keys|
        invariant 0 <= i <= |textureSet.keys|
        invariant resultsList == AfterMapLines(old(resultsList) + [HeaderLine(baseName, textureSet, requiredMaps)], textureSet, i, requiredMaps, res, decode)
      {
        var mapType := textureSet.keys[i];
        assert mapType in textureSet.keys;
        CheckMap(mapType, decode(textureSet.entries[mapType]), requiredMaps, res);
        i := i + 1;
      }
      AfterAllMapLines(old(resultsList), baseName, textureSet, requiredMaps, res, decode);
    }

    /** The body of the per-map loop of `check_texture_set`: appends the line for one map. */
    method CheckMap(mapType: string, d: DecodeResult, requiredMaps: seq<string>, res: int)
      modifies this`resultsList
      ensures resultsList == old(resultsList) + [MapLine(mapType, d, requiredMaps, res)]
    {
      match d {
        case Decoded(width, height) =>
          var errors := [];
          if width != res || height != res {
            errors := errors + [SizeError(width, height, res)];
          }
          if mapType !in requiredMaps {
            errors := errors + ["map not required"];
          }
          assert errors == Errors(mapType, width, height, requiredMaps, res);
          if errors != [] {
            resultsList := resultsList + [WarnLine(mapType, errors)];
          } else {
            resultsList := resultsList + [OkLine(mapType)];
          }
        case DecodeError(message) =>
          resultsList := resultsList + [ErrorLine(mapType, message)];
      }
    }
  }
}
