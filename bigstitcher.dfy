/**
 * The two ImageJ macro generators: `BigStitcherMacro` renders the macro that
 * defines a BigStitcher dataset and estimates the stitching parameters of one
 * region, `FuseMacro` the macro that fuses a stitched dataset into TIFF stacks.
 * Each holds its settings in fields the caller assigns, renders a fixed
 * template with them, and names the file the macro goes to.
 */
module BigStitcher {
  import opened Wrappers
  import opened Text
  import opened MacroTemplate

  /** A file-system path as the generators build it: a base path, or a path with one more name joined on. */
  datatype Path = Path(base: string) | Joined(parent: Path, name: string)

  /** The keyword arguments the generators pass to the template (`img_dir=`, `out_dir=`, ...). */
  datatype Keyword =
    | ImgDir | OutDir | PathToXmlFile | Pattern
    | NumTiles | NumTilesX | NumTilesY
    | OverlapX | OverlapY | OverlapZ
    | PixelDistanceX | PixelDistanceY | PixelDistanceZ
    | TilingMode

  /** How each keyword is spelt in the template and in the call. */
  function Spelling(k: Keyword): string {
    match k
    case ImgDir => "img_dir"
    case OutDir => "out_dir"
    case PathToXmlFile => "path_to_xml_file"
    case Pattern => "pattern"
    case NumTiles => "num_tiles"
    case NumTilesX => "num_tiles_x"
    case NumTilesY => "num_tiles_y"
    case OverlapX => "overlap_x"
    case OverlapY => "overlap_y"
    case OverlapZ => "overlap_z"
    case PixelDistanceX => "pixel_distance_x"
    case PixelDistanceY => "pixel_distance_y"
    case PixelDistanceZ => "pixel_distance_z"
    case TilingMode => "tiling_mode"
  }

  /** Different keywords are spelt differently, so a keyword stands for exactly one `{name}` field. */
  lemma SpellingInjective(k1: Keyword, k2: Keyword)
    requires Spelling(k1) == Spelling(k2)
    ensures k1 == k2
  {
  }

  /** Why rendering a macro fails. */
  datatype MacroError =
      /** The directory argument was still the `Path` class the constructor stores, not a path, so converting it to text raises a TypeError. */
    | TypeError(argument: Keyword)
      /** `convert_tiling_mode` was given a mode other than `snake` and `grid` and returns a variable it never assigned. */
    | UnboundLocalError(variable: string)

  /** What a generator writes: the file and the macro text it holds. */
  datatype MacroFile = MacroFile(path: Path, text: string)

  /** The numerals `1, 2, ..., number` (none when `number <= 0`). */
  function RangeNumerals(number: int): (r: seq<string>)
    ensures |r| == if number > 0 then number else 0
  {
    seq(if number > 0 then number else 0, i requires 0 <= i => NatToString(i + 1))
  }

  /** `make_range(number)`: the tile ids `1..number` in ascending order, separated by commas. */
  function MakeRange(number: int): (r: string)
    ensures number <= 0 <==> r == ""
  {
    Join(RangeNumerals(number), ',')
  }

  /** Splitting the range on commas gives `number` fields, and field `i` reads back as the integer `i + 1`. */
  lemma MakeRangeFields(number: int)
    requires number >= 1
    ensures |Split(MakeRange(number), ',')| == number
    ensures forall i | 0 <= i < number ::
      && Split(MakeRange(number), ',')[i] == NatToString(i + 1)
      && ParseInt(Split(MakeRange(number), ',')[i]) == Some(i + 1)
  {
    var fields := RangeNumerals(number);
    forall i | 0 <= i < |fields| ensures ',' !in fields[i] {
      assert AllDigits(fields[i]);
    }
    SplitJoin(fields, ',');
    forall i | 0 <= i < number ensures ParseInt(fields[i]) == Some(i + 1) {
      ParseIntToString(i + 1);
    }
  }

  lemma MakeRangeFive()
    ensures MakeRange(5) == "1,2,3,4,5"
  {
  }

  const SnakeGrid := "[Snake: Right & Down      ]"
  const RightDownGrid := "[Grid: Right & Down      ]"

  /** `convert_tiling_mode`: the BigStitcher grid type for `snake` and `grid`; any other mode fails. */
  function ConvertTilingMode(mode: string): (r: Result<string, MacroError>)
    ensures r.Ok? <==> mode == "snake" || mode == "grid"
    ensures mode == "snake" ==> r.Ok? && r.value == SnakeGrid
    ensures mode == "grid" ==> r.Ok? && r.value == RightDownGrid
    ensures r.Err? ==> r.error == UnboundLocalError("bigstitcher_tiling_mode")
  {
    if mode == "snake" then Ok(SnakeGrid)
    else if mode == "grid" then Ok(RightDownGrid)
    else Err(UnboundLocalError("bigstitcher_tiling_mode"))
  }

  /** The two modes give different grid types, so the grid type tells which mode was asked for. */
  lemma ConvertTilingModeInjective(mode1: string, mode2: string)
    requires ConvertTilingMode(mode1).Ok? && ConvertTilingMode(mode1) == ConvertTilingMode(mode2)
    ensures mode1 == mode2
  {
    assert SnakeGrid[1] != RightDownGrid[1];
  }

  const MacroFileSuffix := "_bigstitcher_macro.ijm"

  /** The name of the stitching macro of a region: `reg<region>_bigstitcher_macro.ijm`. */
  function MacroFileName(region: int): (name: string)
    ensures |name| > |"reg"| + |MacroFileSuffix|
    ensures name[..3] == "reg" && name[|name| - |MacroFileSuffix|..] == MacroFileSuffix
    ensures name[3..|name| - |MacroFileSuffix|] == IntToString(region)
  {
    "reg" + IntToString(region) + MacroFileSuffix
  }

  /** The region can be read back from the name of its macro file. */
  lemma MacroFileNameRegion(region: int)
    ensures var name := MacroFileName(region);
      ParseInt(name[3..|name| - |MacroFileSuffix|]) == Some(region)
  {
    ParseIntToString(region);
  }

  /** Different regions write different macro files. */
  lemma MacroFileNameInjective(region1: int, region2: int)
    requires MacroFileName(region1) == MacroFileName(region2)
    ensures region1 == region2
  {
    MacroFileNameRegion(region1);
    MacroFileNameRegion(region2);
  }

  const FuseMacroFileName := "fuse_only_macro.ijm"

  /** The template of the stitching macro, field by field. */
  const StitchingTemplate: Template<Keyword> := [
    /*  0 */ Lit("\n"
        + "    // define dataset\n"
        + "    run(\"BigStitcher\",\n"
        + "        \"select=define\" +\n"
        + "        \" define_dataset=[Manual Loader (Bioformats based)]\" +\n"
        + "        \" project_filename="),
    /*  1 */ Field(PathToXmlFile),
    /*  2 */ Lit("\" +\n"
        + "        \" multiple_timepoints=[NO (one time-point)]\" +\n"
        + "        \" multiple_channels=[NO (one channel)]\" +\n"
        + "        \" _____multiple_illumination_directions=[NO (one illumination direction)]\" +\n"
        + "        \" multiple_angles=[NO (one angle)]\" +\n"
        + "        \" multiple_tiles=[YES (one file per tile)]\" +\n"
        + "        \" image_file_directory="),
    /*  3 */ Field(ImgDir),
    /*  4 */ Lit("\" +\n"
        + "        \" image_file_pattern="),
    /*  5 */ Field(Pattern),
    /*  6 */ Lit("\" +\n"
        + "        \" timepoints_=1\" +\n"
        + "        \" tiles_="),
    /*  7 */ Field(NumTiles),
    /*  8 */ Lit("\" +\n"
        + "        \" move_tiles_to_grid_(per_angle)?=[Move Tile to Grid (Macro-scriptable)]\" +\n"
        + "        \" grid_type="),
    /*  9 */ Field(TilingMode),
    /* 10 */ Lit("\" +\n"
        + "        \" tiles_x="),
    /* 11 */ Field(NumTilesX),
    /* 12 */ Lit("\" +\n"
        + "        \" tiles_y="),
    /* 13 */ Field(NumTilesY),
    /* 14 */ Lit("\" +\n"
        + "        \" tiles_z=1\" +\n"
        + "        \" overlap_x_(%)="),
    /* 15 */ Field(OverlapX),
    /* 16 */ Lit("\" +\n"
        + "        \" overlap_y_(%)="),
    /* 17 */ Field(OverlapY),
    /* 18 */ Lit("\" +\n"
        + "        \" overlap_z_(%)="),
    /* 19 */ Field(OverlapZ),
    /* 20 */ Lit("\" +\n"
        + "        \" calibration_type=[Same voxel-size for all views]\" +\n"
        + "        \" calibration_definition=[User define voxel-size(s)]\" +\n"
        + "        \" imglib2_data_container=[ArrayImg (faster)]\" +\n"
        + "        \" pixel_distance_x="),
    /* 21 */ Field(PixelDistanceX),
    /* 22 */ Lit("\" +\n"
        + "        \" pixel_distance_y="),
    /* 23 */ Field(PixelDistanceY),
    /* 24 */ Lit("\" +\n"
        + "        \" pixel_distance_z="),
    /* 25 */ Field(PixelDistanceZ),
    /* 26 */ Lit("\" +\n"
        + "        \" pixel_unit=um\");\n"
        + "\n"
        + "    // calculate pairwise shifts\n"
        + "    run(\"Calculate pairwise shifts ...\",\n"
        + "        \"select="),
    /* 27 */ Field(PathToXmlFile),
    /* 28 */ Lit("\" +\n"
        + "        \" process_angle=[All angles]\" +\n"
        + "        \" process_channel=[All channels]\" +\n"
        + "        \" process_illumination=[All illuminations]\" +\n"
        + "        \" process_tile=[All tiles]\" +\n"
        + "        \" process_timepoint=[All Timepoints]\" +\n"
        + "        \" method=[Phase Correlation]\" +\n"
        + "        \" show_expert_algorithm_parameters\" +\n"
        + "        \" downsample_in_x=1\" +\n"
        + "        \" downsample_in_y=1\" +\n"
        + "        \" number=5\" +\n"
        + "        \" minimal=10\" +\n"
        + "        \" subpixel\");\n"
        + "\n"
        + "    // filter shifts with 0.7 corr. threshold\n"
        + "    run(\"Filter pairwise shifts ...\",\n"
        + "        \"select="),
    /* 29 */ Field(PathToXmlFile),
    /* 30 */ Lit("\" +\n"
        + "        \" filter_by_link_quality\" +\n"
        + "        \" min_r=0.7\" +\n"
        + "        \" max_r=1\" +\n"
        + "        \" max_shift_in_x=0\" +\n"
        + "        \" max_shift_in_y=0\" +\n"
        + "        \" max_shift_in_z=0\" +\n"
        + "        \" max_displacement=0\");\n"
        + "\n"
        + "    // do global optimization\n"
        + "    run(\"Optimize globally and apply shifts ...\",\n"
        + "        \"select="),
    /* 31 */ Field(PathToXmlFile),
    /* 32 */ Lit("\" +\n"
        + "        \" process_angle=[All angles]\" +\n"
        + "        \" process_channel=[All channels]\" +\n"
        + "        \" process_illumination=[All illuminations]\" +\n"
        + "        \" process_tile=[All tiles]\" +\n"
        + "        \" process_timepoint=[All Timepoints]\" +\n"
        + "        \" relative=2.500\" +\n"
        + "        \" absolute=3.500\" +\n"
        + "        \" global_optimization_strategy=[Two-Round using Metadata to align unconnected Tiles]\" +\n"
        + "        \" fix_group_0-0,\");\n"
        + "\n"
        + "\n"
        + "    // quit after we are finished\n"
        + "    run(\"Quit\");\n"
        + "    eval(\"script\", \"System.exit(0);\");\n"
        + "\n"
        + "    ")
  ]

  /** The template of the fusion macro. */
  const FuseTemplate: Template<Keyword> := [
    /*  0 */ Lit("\n"
        + "    // fuse dataset, save as TIFF\n"
        + "    run(\"Fuse dataset ...\",\n"
        + "        \"select="),
    /*  1 */ Field(PathToXmlFile),
    /*  2 */ Lit("\" +\n"
        + "        \" process_angle=[All angles]\" +\n"
        + "        \" process_channel=[All channels]\" +\n"
        + "        \" process_illumination=[All illuminations]\" +\n"
        + "        \" process_tile=[All tiles]\" +\n"
        + "        \" process_timepoint=[All Timepoints]\" +\n"
        + "        \" bounding_box=[All Views]\" +\n"
        + "        \" downsampling=1\" +\n"
        + "        \" pixel_type=[16-bit unsigned integer]\" +\n"
        + "        \" interpolation=[Linear Interpolation]\" +\n"
        + "        \" image=[Precompute Image]\" +\n"
        + "        \" interest_points_for_non_rigid=[-= Disable Non-Rigid =-]\" +\n"
        + "        \" blend produce=[Each timepoint & channel]\" +\n"
        + "        \" fused_image=[Save as (compressed) TIFF stacks]\" +\n"
        + "        \" output_file_directory="),
    /*  3 */ Field(OutDir),
    /*  4 */ Lit("\");\n"
        + "\n"
        + "    ")
  ]

  /** The keyword arguments the fusion generator passes. */
  const FuseKeywords: set<Keyword> := {ImgDir, PathToXmlFile, OutDir}

  /**
   * The stitching template refers to the dataset XML in its four BigStitcher
   * calls (define, pairwise shifts, filter, global optimisation) and nowhere
   * else, and it has no `out_dir` field.
   */
  lemma StitchingTemplateFields()
    ensures forall i | 0 <= i < |StitchingTemplate| ::
      StitchingTemplate[i] == Field(PathToXmlFile) <==> i in {1, 27, 29, 31}
    ensures forall i | 0 <= i < |StitchingTemplate| ::
      StitchingTemplate[i].Field? ==> StitchingTemplate[i].name != OutDir
  {
  }

  /** The fusion template has fields for the dataset XML and the output directory only. */
  lemma FuseTemplateFields()
    ensures forall i | 0 <= i < |FuseTemplate| ::
      FuseTemplate[i].Field? ==> FuseTemplate[i].name in {PathToXmlFile, OutDir}
  {
  }

  /** A template of three literal pieces with the XML path and the output directory between them. */
  lemma FormatFusionShape(head: string, middle: string, tail: string, kwargs: map<Keyword, string>)
    requires PathToXmlFile in kwargs && OutDir in kwargs
    ensures Format([Lit(head), Field(PathToXmlFile), Lit(middle), Field(OutDir), Lit(tail)], kwargs) ==
      Ok(head + kwargs[PathToXmlFile] + middle + kwargs[OutDir] + tail)
  {
    var t := [Lit(head), Field(PathToXmlFile), Lit(middle), Field(OutDir), Lit(tail)];
    var x, o := kwargs[PathToXmlFile], kwargs[OutDir];
    assert t[4..] == [Lit(tail)] && t[4..][1..] == [];
    assert Format(t[4..], kwargs) == Ok(tail + "");
    assert tail + "" == tail;
    assert t[3..][1..] == t[4..];
    assert Format(t[3..], kwargs) == Ok(o + tail);
    assert t[2..][1..] == t[3..];
    assert Format(t[2..], kwargs) == Ok(middle + (o + tail));
    assert t[1..][1..] == t[2..];
    assert Format(t[1..], kwargs) == Ok(x + (middle + (o + tail)));
    assert Format(t, kwargs) == Ok(head + (x + (middle + (o + tail))));
    assert head + (x + (middle + (o + tail))) == head + x + middle + o + tail;
  }

  /** The fusion macro is its three literal pieces with the XML path and the output directory between them. */
  lemma FormatFuseTemplate(kwargs: map<Keyword, string>)
    requires PathToXmlFile in kwargs && OutDir in kwargs
    ensures Format(FuseTemplate, kwargs) == Ok(
      FuseTemplate[0].text + kwargs[PathToXmlFile] + FuseTemplate[2].text + kwargs[OutDir] + FuseTemplate[4].text)
  {
    var t := FuseTemplate;
    assert t == [Lit(t[0].text), Field(PathToXmlFile), Lit(t[2].text), Field(OutDir), Lit(t[4].text)];
    FormatFusionShape(t[0].text, t[2].text, t[4].text, kwargs);
  }

  /** The settings of the stitching macro of one region; the caller assigns the fields. */
  class BigStitcherMacro {
    /** `None` while the field still holds the `Path` class the constructor puts there. */
    var imgDir: Option<Path>
    var outDir: Option<Path>
    var xmlFileName: string
    var pattern: string
    var numTiles: int
    var numTilesX: int
    var numTilesY: int
    /** Overlap of neighbouring tiles, in percent. */
    var overlapX: int
    var overlapY: int
    var overlapZ: int
    /** Pixel size, in micrometres. */
    var pixelDistanceX: int
    var pixelDistanceY: int
    var pixelDistanceZ: int
    var tilingMode: string
    var region: int

    constructor ()
      ensures imgDir == None && outDir == None
      ensures xmlFileName == "dataset.xml" && pattern == "1_{xxxxx}_Z001.tif"
      ensures numTiles == 1 && numTilesX == 1 && numTilesY == 1
      ensures overlapX == 10 && overlapY == 10 && overlapZ == 1
      ensures pixelDistanceX == 1 && pixelDistanceY == 1 && pixelDistanceZ == 1
      ensures tilingMode == "" && region == 1
    {
      imgDir := None;
      outDir := None;
      xmlFileName := "dataset.xml";
      pattern := "1_{xxxxx}_Z001.tif";
      numTiles := 1;
      numTilesX := 1;
      numTilesY := 1;
      overlapX := 10;
      overlapY := 10;
      overlapZ := 1;
      pixelDistanceX := 1;
      pixelDistanceY := 1;
      pixelDistanceZ := 1;
      tilingMode := "";
      region := 1;
    }

    /** Both directories are paths and the tiling mode is one BigStitcher knows. */
    predicate Renderable()
      reads this
    {
      imgDir.Some? && outDir.Some? && (tilingMode == "snake" || tilingMode == "grid")
    }

    /**
     * The keyword arguments of the `format` call, evaluated left to right:
     * the first one that raises decides the error.
     */
    function Arguments(pathToStr: Path -> string): (r: Result<map<Keyword, string>, MacroError>)
      reads this
      ensures r.Ok? <==> Renderable()
      ensures imgDir.None? ==> r == Err(TypeError(ImgDir))
      ensures imgDir.Some? && outDir.None? ==> r == Err(TypeError(OutDir))
      ensures imgDir.Some? && outDir.Some? && !Renderable() ==> r == Err(UnboundLocalError("bigstitcher_tiling_mode"))
      ensures r.Ok? ==> forall k: Keyword :: k in r.value
      ensures r.Ok? ==> r.value[ImgDir] == pathToStr(imgDir.value) && r.value[OutDir] == pathToStr(outDir.value)
      ensures r.Ok? ==> r.value[PathToXmlFile] == pathToStr(Joined(imgDir.value, xmlFileName))
      ensures r.Ok? ==> r.value[NumTiles] == MakeRange(numTiles)
      ensures r.Ok? ==> r.value[TilingMode] == ConvertTilingMode(tilingMode).value
    {
      if imgDir.None? then Err(TypeError(ImgDir))
      else if outDir.None? then Err(TypeError(OutDir))
      else
        var mode :- ConvertTilingMode(tilingMode);
        Ok(map k: Keyword :: ArgumentText(pathToStr, mode, k))
    }

    /** The text passed for keyword `k`, with `mode` the converted tiling mode. */
    function ArgumentText(pathToStr: Path -> string, mode: string, k: Keyword): string
      requires imgDir.Some? && outDir.Some?
      reads this
    {
      match k
      case ImgDir => pathToStr(imgDir.value)
      case OutDir => pathToStr(outDir.value)
      case PathToXmlFile => pathToStr(Joined(imgDir.value, xmlFileName))
      case Pattern => pattern
      case NumTiles => MakeRange(numTiles)
      case NumTilesX => IntToString(numTilesX)
      case NumTilesY => IntToString(numTilesY)
      case OverlapX => IntToString(overlapX)
      case OverlapY => IntToString(overlapY)
      case OverlapZ => IntToString(overlapZ)
      case PixelDistanceX => IntToString(pixelDistanceX)
      case PixelDistanceY => IntToString(pixelDistanceY)
      case PixelDistanceZ => IntToString(pixelDistanceZ)
      case TilingMode => mode
    }

    /**
     * `replace_values_in_macro`: the stitching template with the arguments
     * substituted. Every field has an argument, so the only failures are
     * those of the arguments themselves.
     */
    function ReplaceValuesInMacro(pathToStr: Path -> string): (r: Result<string, MacroError>)
      reads this
      ensures r.Ok? <==> Renderable()
      ensures r.Err? ==> Arguments(pathToStr).Err? && r.error == Arguments(pathToStr).error
      ensures r.Ok? ==> Format(StitchingTemplate, Arguments(pathToStr).value) == Ok(r.value)
    {
      var kwargs :- Arguments(pathToStr);
      StitchingTemplateFields();
      Ok(Format(StitchingTemplate, kwargs).value)
    }

    /** `write_to_temp_macro_file`'s destination: the region's macro file in the output directory. */
    function MacroFilePath(): Path
      requires outDir.Some?
      reads this
    {
      Joined(outDir.value, MacroFileName(region))
    }

    /** `generate`: render the macro and write it to the region's macro file. */
    method Generate(pathToStr: Path -> string) returns (r: Result<MacroFile, MacroError>)
      ensures r.Ok? <==> Renderable()
      ensures r.Err? ==> r.error == Arguments(pathToStr).error
      ensures r.Ok? ==> r.value.path == Joined(outDir.value, MacroFileName(region))
      ensures r.Ok? ==> Ok(r.value.text) == ReplaceValuesInMacro(pathToStr)
    {
      var text :- ReplaceValuesInMacro(pathToStr);
      r := Ok(MacroFile(MacroFilePath(), text));
    }
  }

  /** The stitching `format` call passes the file pattern as it stands and the grid size as `str()` writes it. */
  lemma PatternAndGridArguments(m: BigStitcherMacro, pathToStr: Path -> string)
    requires m.Renderable()
    ensures var kwargs := m.Arguments(pathToStr).value;
      && kwargs[Pattern] == m.pattern
      && kwargs[NumTilesX] == IntToString(m.numTilesX)
      && kwargs[NumTilesY] == IntToString(m.numTilesY)
  {
  }

  /** The stitching `format` call passes the three overlaps as `str()` writes them. */
  lemma OverlapArguments(m: BigStitcherMacro, pathToStr: Path -> string)
    requires m.Renderable()
    ensures var kwargs := m.Arguments(pathToStr).value;
      && kwargs[OverlapX] == IntToString(m.overlapX)
      && kwargs[OverlapY] == IntToString(m.overlapY)
      && kwargs[OverlapZ] == IntToString(m.overlapZ)
  {
  }

  /** The stitching `format` call passes the three pixel distances as `str()` writes them. */
  lemma PixelDistanceArguments(m: BigStitcherMacro, pathToStr: Path -> string)
    requires m.Renderable()
    ensures var kwargs := m.Arguments(pathToStr).value;
      && kwargs[PixelDistanceX] == IntToString(m.pixelDistanceX)
      && kwargs[PixelDistanceY] == IntToString(m.pixelDistanceY)
      && kwargs[PixelDistanceZ] == IntToString(m.pixelDistanceZ)
  {
  }

  /**
   * The stitching macro goes into the output directory, under a file name that
   * tells the region: two settings give the same file name exactly when they
   * have the same region, and the same output directory and region give the same path.
   */
  lemma StitchingMacroFilePaths(a: BigStitcherMacro, b: BigStitcherMacro)
    requires a.outDir.Some? && b.outDir.Some?
    ensures a.MacroFilePath().Joined? && a.MacroFilePath().parent == a.outDir.value
    ensures a.MacroFilePath().Joined? && b.MacroFilePath().Joined?
    ensures a.MacroFilePath().name == b.MacroFilePath().name <==> a.region == b.region
    ensures a.outDir == b.outDir && a.region == b.region ==> a.MacroFilePath() == b.MacroFilePath()
  {
    if a.MacroFilePath().name == b.MacroFilePath().name {
      MacroFileNameInjective(a.region, b.region);
    }
  }

  /** A macro generator left with its default settings fails on the image directory. */
  method DefaultStitchingSettingsFail(pathToStr: Path -> string) returns (r: Result<MacroFile, MacroError>)
    ensures r == Err(TypeError(ImgDir))
  {
    var m := new BigStitcherMacro();
    r := m.Generate(pathToStr);
  }

  /**
   * Each of the four BigStitcher calls of the stitching macro names the same
   * dataset: the image directory joined with the XML file name, converted to
   * text like the directories.
   */
  lemma DatasetPathInEveryCall(m: BigStitcherMacro, pathToStr: Path -> string, i: int)
    requires m.Renderable() && i in {1, 27, 29, 31}
    ensures var kwargs := m.Arguments(pathToStr).value;
      && Format(StitchingTemplate[..i], kwargs).Ok?
      && Format(StitchingTemplate[i + 1..], kwargs).Ok?
      && m.ReplaceValuesInMacro(pathToStr).value ==
           Format(StitchingTemplate[..i], kwargs).value
           + pathToStr(Joined(m.imgDir.value, m.xmlFileName))
           + Format(StitchingTemplate[i + 1..], kwargs).value
  {
    var kwargs := m.Arguments(pathToStr).value;
    var t := StitchingTemplate;
    assert t[i] == Field(PathToXmlFile) by {
      StitchingTemplateFields();
    }
    FormatAt(t, i, kwargs);
  }

  /** Two renderable settings that differ at most in the output directory and the region pass the same arguments except `out_dir`. */
  lemma SameArgumentsButOutDir(a: BigStitcherMacro, b: BigStitcherMacro, pathToStr: Path -> string)
    requires a.Renderable() && b.Renderable()
    requires a.imgDir == b.imgDir && a.xmlFileName == b.xmlFileName && a.pattern == b.pattern
    requires a.numTiles == b.numTiles && a.numTilesX == b.numTilesX && a.numTilesY == b.numTilesY
    requires a.overlapX == b.overlapX && a.overlapY == b.overlapY && a.overlapZ == b.overlapZ
    requires a.pixelDistanceX == b.pixelDistanceX && a.pixelDistanceY == b.pixelDistanceY
    requires a.pixelDistanceZ == b.pixelDistanceZ && a.tilingMode == b.tilingMode
    ensures forall k: Keyword | k != OutDir :: a.Arguments(pathToStr).value[k] == b.Arguments(pathToStr).value[k]
  {
    var mode := ConvertTilingMode(a.tilingMode).value;
    forall k: Keyword | k != OutDir
      ensures a.ArgumentText(pathToStr, mode, k) == b.ArgumentText(pathToStr, mode, k)
    {
    }
  }

  /**
   * The stitching macro does not depend on the output directory (only on its
   * being set) nor on the region: the other fields decide the text.
   */
  lemma StitchingTextIgnoresOutDir(a: BigStitcherMacro, b: BigStitcherMacro, pathToStr: Path -> string)
    requires a.Renderable() && b.Renderable()
    requires a.imgDir == b.imgDir && a.xmlFileName == b.xmlFileName && a.pattern == b.pattern
    requires a.numTiles == b.numTiles && a.numTilesX == b.numTilesX && a.numTilesY == b.numTilesY
    requires a.overlapX == b.overlapX && a.overlapY == b.overlapY && a.overlapZ == b.overlapZ
    requires a.pixelDistanceX == b.pixelDistanceX && a.pixelDistanceY == b.pixelDistanceY
    requires a.pixelDistanceZ == b.pixelDistanceZ && a.tilingMode == b.tilingMode
    ensures a.ReplaceValuesInMacro(pathToStr) == b.ReplaceValuesInMacro(pathToStr)
  {
    SameArgumentsButOutDir(a, b, pathToStr);
    var kwargsA, kwargsB := a.Arguments(pathToStr).value, b.Arguments(pathToStr).value;
    StitchingTemplateFields();
    FormatIgnoresUnusedArguments(StitchingTemplate, kwargsA, kwargsB);
  }

  /** The settings of the fusion macro of one channel directory. */
  class FuseMacro {
    var imgDir: Path
    var xmlFileName: string
    var outDir: Path

    constructor ()
      ensures imgDir == Path(".") && xmlFileName == "dataset.xml" && outDir == Path(".")
    {
      imgDir := Path(".");
      xmlFileName := "dataset.xml";
      outDir := Path(".");
    }

    /** The keyword arguments of the `format` call. */
    function Arguments(pathToStr: Path -> string): (kwargs: map<Keyword, string>)
      reads this
      ensures kwargs.Keys == FuseKeywords
      ensures kwargs[ImgDir] == pathToStr(imgDir)
      ensures kwargs[PathToXmlFile] == pathToStr(Joined(imgDir, xmlFileName))
      ensures kwargs[OutDir] == pathToStr(outDir)
    {
      map[
        ImgDir := pathToStr(imgDir),
        PathToXmlFile := pathToStr(Joined(imgDir, xmlFileName)),
        OutDir := pathToStr(outDir)]
    }

    /** `replace_values_in_macro`: the fusion template with the arguments substituted; it cannot fail. */
    function ReplaceValuesInMacro(pathToStr: Path -> string): (text: string)
      reads this
      ensures Format(FuseTemplate, Arguments(pathToStr)) == Ok(text)
      ensures text == FuseTemplate[0].text + pathToStr(Joined(imgDir, xmlFileName))
        + FuseTemplate[2].text + pathToStr(outDir) + FuseTemplate[4].text
    {
      FormatFuseTemplate(Arguments(pathToStr));
      Format(FuseTemplate, Arguments(pathToStr)).value
    }

    /** `write_to_macro_file_in_channel_dir`'s destination: `fuse_only_macro.ijm` in the image directory. */
    function MacroFilePath(): Path
      reads this
    {
      Joined(imgDir, FuseMacroFileName)
    }

    /** `generate`: render the macro and write it next to the images. */
    method Generate(pathToStr: Path -> string) returns (written: MacroFile)
      ensures written.path == Joined(imgDir, FuseMacroFileName)
      ensures written.text == ReplaceValuesInMacro(pathToStr)
    {
      var text := ReplaceValuesInMacro(pathToStr);
      written := MacroFile(MacroFilePath(), text);
    }
  }

  /**
   * The fusion macro goes into the image directory under the one name
   * `fuse_only_macro.ijm`, whatever the other settings, so settings with the
   * same image directory overwrite the same file.
   */
  lemma FuseMacroFilePaths(a: FuseMacro, b: FuseMacro)
    ensures a.MacroFilePath().Joined? && a.MacroFilePath().parent == a.imgDir
    ensures a.MacroFilePath().Joined? && b.MacroFilePath().Joined?
    ensures a.MacroFilePath().name == b.MacroFilePath().name == FuseMacroFileName
    ensures a.imgDir == b.imgDir ==> a.MacroFilePath() == b.MacroFilePath()
  {
  }

  /**
   * The fusion macro depends on the directories only through the text of the
   * dataset XML path and of the output directory: the `img_dir` argument it is
   * also given is never used.
   */
  lemma FuseTextIgnoresImgDirArgument(a: FuseMacro, b: FuseMacro, pathToStr: Path -> string)
    requires pathToStr(Joined(a.imgDir, a.xmlFileName)) == pathToStr(Joined(b.imgDir, b.xmlFileName))
    requires pathToStr(a.outDir) == pathToStr(b.outDir)
    ensures a.ReplaceValuesInMacro(pathToStr) == b.ReplaceValuesInMacro(pathToStr)
  {
    FuseTemplateFields();
    FormatIgnoresUnusedArguments(FuseTemplate, a.Arguments(pathToStr), b.Arguments(pathToStr));
  }
}
