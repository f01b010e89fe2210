/** The configuration tables of scratch/ns2TraceInterface.cc: the codebook
    code of a UE or an eNB, the building and wall type names, and the split
    of the total bandwidth between the two component carriers. The JSON
    file the values come from is outside the model: each table is a
    function of the value read. */
module TraceConfig {

  import opened Wrappers
  import SinrSampler

  // ---------------------------------------------------------------------
  // Codebook codes
  // ---------------------------------------------------------------------

  /** The folder the codebook files live in. */
  const CodebookDir: string := "src/mmwave/model/Codebooks/"

  /** What a codebook code selects: the codebook file and the antenna array
      dimensions. */
  datatype Codebook = Codebook(path: string, rows: int, columns: int)

  /** The codes both switch statements have a case for. */
  const AcceptedCodes: set<int> := {11, 12, 14, 18, 21, 22, 41, 44, 48, 81, 84, 88}

  /** The switch on ueCodeBook. A code without a case leaves the path empty
      and the dimensions uninitialised: None. */
  function UeCodebook(code: int): Option<Codebook>
  {
    match code
    case 11 => Some(Codebook("src/mmwave/model/Codebooks/1x1.txt", 1, 1))
    case 12 => Some(Codebook("src/mmwave/model/Codebooks/1x2.txt", 1, 2))
    case 14 => Some(Codebook("src/mmwave/model/Codebooks/1x4.txt", 1, 4))
    case 18 => Some(Codebook("src/mmwave/model/Codebooks/1x8.txt", 1, 8))
    case 21 => Some(Codebook("src/mmwave/model/Codebooks/2x1.txt", 2, 1))
    case 22 => Some(Codebook("src/mmwave/model/Codebooks/2x2.txt", 2, 2))
    case 41 => Some(Codebook("src/mmwave/model/Codebooks/4x1.txt", 4, 1))
    case 44 => Some(Codebook("src/mmwave/model/Codebooks/4x4.txt", 4, 4))
    case 48 => Some(Codebook("src/mmwave/model/Codebooks/4x8.txt", 4, 8))
    case 81 => Some(Codebook("src/mmwave/model/Codebooks/8x1.txt", 8, 1))
    case 84 => Some(Codebook("src/mmwave/model/Codebooks/8x4.txt", 8, 4))
    case 88 => Some(Codebook("src/mmwave/model/Codebooks/8x8.txt", 8, 8))
    case _ => None
  }

  /** The switch on enbCodeBook, written out separately as the program does. */
  function EnbCodebook(code: int): Option<Codebook>
  {
    match code
    case 11 => Some(Codebook("src/mmwave/model/Codebooks/1x1.txt", 1, 1))
    case 12 => Some(Codebook("src/mmwave/model/Codebooks/1x2.txt", 1, 2))
    case 14 => Some(Codebook("src/mmwave/model/Codebooks/1x4.txt", 1, 4))
    case 18 => Some(Codebook("src/mmwave/model/Codebooks/1x8.txt", 1, 8))
    case 21 => Some(Codebook("src/mmwave/model/Codebooks/2x1.txt", 2, 1))
    case 22 => Some(Codebook("src/mmwave/model/Codebooks/2x2.txt", 2, 2))
    case 41 => Some(Codebook("src/mmwave/model/Codebooks/4x1.txt", 4, 1))
    case 44 => Some(Codebook("src/mmwave/model/Codebooks/4x4.txt", 4, 4))
    case 48 => Some(Codebook("src/mmwave/model/Codebooks/4x8.txt", 4, 8))
    case 81 => Some(Codebook("src/mmwave/model/Codebooks/8x1.txt", 8, 1))
    case 84 => Some(Codebook("src/mmwave/model/Codebooks/8x4.txt", 8, 4))
    case 88 => Some(Codebook("src/mmwave/model/Codebooks/8x8.txt", 8, 8))
    case _ => None
  }

  /** The UE switch selects a codebook exactly for the accepted codes, and
      then the code is its rows digit followed by its columns digit. */
  lemma UeCodebookDigits(code: int)
    ensures UeCodebook(code).Some? <==> code in AcceptedCodes
    ensures UeCodebook(code).Some? ==>
      UeCodebook(code).value.rows == code / 10 && UeCodebook(code).value.columns == code % 10
  {
  }

  /** Reading the dimensions back gives the code: distinct codes select
      distinct arrays. */
  lemma UeCodebookRoundTrip(code: int)
    requires UeCodebook(code).Some?
    ensures 10 * UeCodebook(code).value.rows + UeCodebook(code).value.columns == code
  {
    UeCodebookDigits(code);
  }

  /** The file of every accepted code is the codebook folder followed by the
      rows, an 'x', the columns and ".txt", the file name construction the
      SINR sampler uses. */
  lemma UeCodebookPath(code: int)
    requires UeCodebook(code).Some?
    ensures var cb := UeCodebook(code).value;
      && 1 <= cb.rows <= 8 && 1 <= cb.columns <= 8
      && cb.path == SinrSampler.CodebookFilename(CodebookDir, cb.rows as SinrSampler.uint16, cb.columns as SinrSampler.uint16)
  {
    var cb := UeCodebook(code).value;
    assert SinrSampler.DecimalString(1) == "1";
    assert SinrSampler.DecimalString(2) == "2";
    assert SinrSampler.DecimalString(4) == "4";
    assert SinrSampler.DecimalString(8) == "8";
  }

  /** Different accepted codes select different codebook files. */
  lemma UeCodebookPathsDistinct(code1: int, code2: int)
    requires UeCodebook(code1).Some? && UeCodebook(code2).Some?
    requires UeCodebook(code1).value.path == UeCodebook(code2).value.path
    ensures code1 == code2
  {
    var cb1, cb2 := UeCodebook(code1).value, UeCodebook(code2).value;
    UeCodebookPath(code1);
    UeCodebookPath(code2);
    SinrSampler.CodebookFilenameInjective(CodebookDir, cb1.rows as SinrSampler.uint16, cb1.columns as SinrSampler.uint16,
                                          cb2.rows as SinrSampler.uint16, cb2.columns as SinrSampler.uint16);
    UeCodebookRoundTrip(code1);
    UeCodebookRoundTrip(code2);
  }

  /** The eNB switch is the UE switch. */
  lemma EnbCodebookIsUeCodebook(code: int)
    ensures EnbCodebook(code) == UeCodebook(code)
  {
  }

  // ---------------------------------------------------------------------
  // Building and wall types
  // ---------------------------------------------------------------------

  datatype BuildingType = Residential | Office | Commercial

  datatype ExtWallsType = Wood | ConcreteWithWindows | ConcreteWithoutWindows | StoneBlocks

  /** The name of each building type in the configuration file. */
  function BuildingTypeName(t: BuildingType): string
  {
    match t
    case Residential => "Building::Residential"
    case Office => "Building::Office"
    case Commercial => "Building::Commercial"
  }

  /** The building type chain: a recognised name selects its type, any other
      keeps the default, Residential. */
  function ParseBuildingType(name: string): (t: BuildingType)
    ensures t == Office <==> name == "Building::Office"
    ensures t == Commercial <==> name == "Building::Commercial"
    ensures t == Residential <==> name != "Building::Office" && name != "Building::Commercial"
  {
    var t := Residential;
    if name == "Building::Residential" then Residential
    else if name == "Building::Office" then Office
    else if name == "Building::Commercial" then Commercial
    else t
  }

  /** Every building type is recognised under its own name. */
  lemma ParseBuildingTypeName(t: BuildingType)
    ensures ParseBuildingType(BuildingTypeName(t)) == t
  {
  }

  /** The name of each wall type in the configuration file. */
  function WallTypeName(t: ExtWallsType): string
  {
    match t
    case Wood => "Building::Wood"
    case ConcreteWithWindows => "Building::ConcreteWithWindows"
    case ConcreteWithoutWindows => "Building::ConcreteWithoutWindows"
    case StoneBlocks => "Building::StoneBlocks"
  }

  /** The wall type chain: a recognised name selects its type, any other keeps
      the default, ConcreteWithWindows. */
  function ParseWallType(name: string): (t: ExtWallsType)
    ensures t == Wood <==> name == "Building::Wood"
    ensures t == ConcreteWithoutWindows <==> name == "Building::ConcreteWithoutWindows"
    ensures t == StoneBlocks <==> name == "Building::StoneBlocks"
    ensures t == ConcreteWithWindows <==>
      name != "Building::Wood" && name != "Building::ConcreteWithoutWindows" && name != "Building::StoneBlocks"
  {
    var t := ConcreteWithWindows;
    if name == "Building::Wood" then Wood
    else if name == "Building::ConcreteWithWindows" then ConcreteWithWindows
    else if name == "Building::ConcreteWithoutWindows" then ConcreteWithoutWindows
    else if name == "Building::StoneBlocks" then StoneBlocks
    else t
  }

  /** Every wall type is recognised under its own name. */
  lemma ParseWallTypeName(t: ExtWallsType)
    ensures ParseWallType(WallTypeName(t)) == t
  {
  }

  // ---------------------------------------------------------------------
  // Component-carrier bandwidths
  // ---------------------------------------------------------------------

  /** bandDiv is a uint32_t. */
  newtype uint32 = x: int | 0 <= x < 0x1_0000_0000

  /** Subtraction of unsigned 32-bit integers, wrapping modulo 2^32. */
  function Uint32Sub(a: uint32, b: uint32): uint32
  {
    ((a as int - b as int) % 0x1_0000_0000) as uint32
  }

  /** The bandwidth of carrier 0 as written: 1 - 1/bandDiv is evaluated in
      unsigned integer arithmetic before it scales the total. */
  function Cc0Bandwidth(bandDiv: uint32, totalBandwidth: real): real
    requires bandDiv != 0
  {
    (Uint32Sub(1, 1 / bandDiv) as real) * totalBandwidth
  }

  /** The bandwidth of carrier 1: totalBandwidth * 1 / bandDiv in double
      arithmetic. Carrier 1 is always configured, since useCa is true. */
  function Cc1Bandwidth(bandDiv: uint32, totalBandwidth: real): (bw: real)
    requires bandDiv != 0
    ensures bw * (bandDiv as real) == totalBandwidth
  {
    totalBandwidth * 1.0 / (bandDiv as real)
  }

  /** The integer quotient makes carrier 0 all or nothing: it gets the whole
      total for every bandDiv of 2 or more, and nothing for bandDiv 1. */
  lemma Cc0BandwidthAllOrNothing(bandDiv: uint32, totalBandwidth: real)
    requires bandDiv != 0
    ensures bandDiv >= 2 ==> Cc0Bandwidth(bandDiv, totalBandwidth) == totalBandwidth
    ensures bandDiv == 1 ==> Cc0Bandwidth(bandDiv, totalBandwidth) == 0.0
  {
    if bandDiv >= 2 {
      assert 1 / bandDiv == 0;
      assert Uint32Sub(1, 0) == 1;
    } else {
      assert Uint32Sub(1, 1) == 0;
    }
  }

  /** As written, the two carriers together claim more than the total for
      every bandDiv of 2 or more and a positive total. */
  lemma CarriersExceedTotal(bandDiv: uint32, totalBandwidth: real)
    requires bandDiv >= 2 && totalBandwidth > 0.0
    ensures Cc0Bandwidth(bandDiv, totalBandwidth) + Cc1Bandwidth(bandDiv, totalBandwidth) > totalBandwidth
  {
    Cc0BandwidthAllOrNothing(bandDiv, totalBandwidth);
    var cc1 := Cc1Bandwidth(bandDiv, totalBandwidth);
    assert cc1 * (bandDiv as real) == totalBandwidth;
    PositiveQuotient(cc1, bandDiv as real, totalBandwidth);
  }

  /** A factor that, multiplied by a positive number, gives a positive
      product is positive. */
  lemma PositiveQuotient(q: real, d: real, p: real)
    requires d > 0.0 && p > 0.0 && q * d == p
    ensures q > 0.0
  {
  }

  /** The default configuration: 800 MHz split with bandDiv 2 gives 800 MHz
      to carrier 0 and 400 MHz to carrier 1. */
  lemma DefaultCarriers()
    ensures Cc0Bandwidth(2, 800000000.0) == 800000000.0
    ensures Cc1Bandwidth(2, 800000000.0) == 400000000.0
  {
    Cc0BandwidthAllOrNothing(2, 800000000.0);
  }

  /** The bandwidth of carrier 0 as evidently intended: what carrier 1 leaves
      of the total. */
  function IntendedCc0Bandwidth(bandDiv: uint32, totalBandwidth: real): real
    requires bandDiv != 0
  {
    (1.0 - 1.0 / (bandDiv as real)) * totalBandwidth
  }

  /** The intended split divides the total exactly, and gives each carrier a
      non-negative share of a non-negative total. */
  lemma IntendedCarriersCoverTotal(bandDiv: uint32, totalBandwidth: real)
    requires bandDiv != 0
    ensures IntendedCc0Bandwidth(bandDiv, totalBandwidth) + Cc1Bandwidth(bandDiv, totalBandwidth) == totalBandwidth
    ensures totalBandwidth >= 0.0 ==>
      IntendedCc0Bandwidth(bandDiv, totalBandwidth) >= 0.0 && Cc1Bandwidth(bandDiv, totalBandwidth) >= 0.0
  {
    var d := bandDiv as real;
    var f := 1.0 / d;
    assert f * d == 1.0;
    assert 0.0 < f <= 1.0 by {
      PositiveQuotient(f, d, 1.0);
    }
    assert Cc1Bandwidth(bandDiv, totalBandwidth) == f * totalBandwidth;
    assert IntendedCc0Bandwidth(bandDiv, totalBandwidth) == (1.0 - f) * totalBandwidth;
  }
}
