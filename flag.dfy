/** Flag colours, their database ids and their display colours (`Flag.cpp`). */
module Flag {
  import opened Wrappers

  type UInt8 = x: nat | x < 256

  datatype FlagColor = Gray | Blue | Green | Yellow | Orange | Red | Purple

  datatype Rgb = Rgb(red: UInt8, green: UInt8, blue: UInt8)

  const ColorRgbMapping: map<FlagColor, Rgb> := map[
    Gray := Rgb(158, 158, 158), Blue := Rgb(12, 147, 205), Green := Rgb(135, 186, 35),
    Yellow := Rgb(251, 213, 55), Orange := Rgb(235, 148, 95), Red := Rgb(224, 74, 104),
    Purple := Rgb(152, 57, 154)]

  const ColorIdMapping: map<FlagColor, UInt8> := map[
    Gray := 1, Blue := 2, Green := 3, Yellow := 4, Orange := 5, Red := 6, Purple := 7]

  const IdColorMapping: map<UInt8, FlagColor> := map[
    1 := Gray, 2 := Blue, 3 := Green, 4 := Yellow, 5 := Orange, 6 := Red, 7 := Purple]

  const UnknownFlagColor: string := "Unknown flag color requested"
  const UnknownFlagColorID: string := "Unknown flag color ID requested"

  /** The magenta returned for a colour missing from the table. */
  const FallbackRgb := Rgb(255, 0, 255)

  lemma ColorsMapped(color: FlagColor)
    ensures color in ColorRgbMapping && color in ColorIdMapping
  {
    match color
    case Gray =>
    case Blue =>
    case Green =>
    case Yellow =>
    case Orange =>
    case Red =>
    case Purple =>
  }

  /** `rgbForColor`: every colour has a table entry, so the fallback is never returned. */
  function RgbForColor(color: FlagColor): (r: Rgb)
    ensures color in ColorRgbMapping && r == ColorRgbMapping[color]
    ensures r != FallbackRgb
  {
    ColorsMapped(color);
    if color in ColorRgbMapping then ColorRgbMapping[color] else assert false; FallbackRgb
  }

  /** `idForFlagColor`: never throws; the ids are 1..7. */
  function IdForFlagColor(color: FlagColor): (r: Result<UInt8>)
    ensures r.Ok? && 1 <= r.value <= 7
  {
    ColorsMapped(color);
    if color in ColorIdMapping then Ok(ColorIdMapping[color]) else assert false; Err(UnknownFlagColor)
  }

  /** `flagColorForID`: the inverse of `idForFlagColor`, throwing outside 1..7. */
  function FlagColorForId(id: UInt8): (r: Result<FlagColor>)
    ensures r.Ok? <==> 1 <= id <= 7
    ensures r.Ok? ==> IdForFlagColor(r.value) == Ok(id)
    ensures r.Err? ==> r.error == UnknownFlagColorID
  {
    if id in IdColorMapping then Ok(IdColorMapping[id]) else Err(UnknownFlagColorID)
  }

  /** Distinct colours get distinct ids, and the id of a colour maps back to it. */
  lemma IdForFlagColorInjective(a: FlagColor, b: FlagColor)
    ensures FlagColorForId(IdForFlagColor(a).value) == Ok(a)
    ensures IdForFlagColor(a) == IdForFlagColor(b) ==> a == b
  {
  }

  /**
   * The colour names used by the JSON encodings. The name table lives in
   * `Flag.h`, which is not part of this model; lower-case English names are
   * assumed.
   */
  function NameForFlagColor(color: FlagColor): (r: string)
    ensures r != [] && ',' !in r && 'a' <= r[0] <= 'z' && 'a' <= r[|r| - 1] <= 'z'
  {
    match color
    case Gray => "gray"
    case Blue => "blue"
    case Green => "green"
    case Yellow => "yellow"
    case Orange => "orange"
    case Red => "red"
    case Purple => "purple"
  }

  const NameColorMapping: map<string, FlagColor> := map[
    "gray" := Gray, "blue" := Blue, "green" := Green, "yellow" := Yellow,
    "orange" := Orange, "red" := Red, "purple" := Purple]

  const UnknownFlagColorName: string := "Unknown flag color name requested"

  /** `flagColorForName`: the inverse of `nameForFlagColor`, throwing for any other name. */
  function FlagColorForName(name: string): (r: Result<FlagColor>)
    ensures r.Ok? ==> NameForFlagColor(r.value) == name
    ensures r.Err? ==> r.error == UnknownFlagColorName
  {
    if name in NameColorMapping then Ok(NameColorMapping[name]) else Err(UnknownFlagColorName)
  }

  lemma FlagColorForNameOfName(color: FlagColor)
    ensures FlagColorForName(NameForFlagColor(color)) == Ok(color)
  {
  }
}
