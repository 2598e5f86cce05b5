/** The record and string-literal union shapes of `types.ts`. */
module Types {
  import opened Wrappers

  /** `areaUnit: 'acres' | 'hectares' | 'bigha' | 'katha'` */
  datatype AreaUnit = Acres | Hectares | Bigha | Katha

  /** `waterSource: 'rain' | 'bore' | 'canal' | 'river' | 'tank'` */
  datatype WaterSource = Rain | Bore | Canal | River | Tank

  /** `budget: 'low' | 'medium' | 'high'` */
  datatype Budget = Low | Medium | High

  /** `landArea: number | ''`: an amount, or the empty marker of a blank input. */
  datatype LandArea = Blank | Amount(value: real)

  /** `FarmData`: the submitted farm profile. */
  datatype FarmData = FarmData(
    street: string,
    town: string,
    district: string,
    state: string,
    pincode: string,
    landArea: LandArea,
    areaUnit: AreaUnit,
    currentCrop: string,
    waterSource: WaterSource,
    budget: Budget,
    fullAddress: string)

  /** `SoilData`: one indicator of the soil report, as display text. */
  datatype SoilData = SoilData(name: string, value: string, icon: string, ideal: string, color: string, textColor: string)

  /** `CropData`: one record of the crop dataset; yields are whole kilograms per hectare. */
  datatype CropData = CropData(
    state: string,
    district: string,
    crop: string,
    cropYear: int,
    season: string,
    area: real,
    production: real,
    soilPhObserved: real,
    soilPhOptimalMin: real,
    soilPhOptimalMax: real,
    rainfallMmObserved: real,
    cropMinRainMm: real,
    cropMaxRainMm: real,
    yieldKgPerHa: int,
    category: string,
    waterNeed: string,
    icon: string)

  /** `sender: 'user' | 'bot'` */
  datatype Sender = User | Bot

  datatype ChatMessage = ChatMessage(sender: Sender, text: string)

  /** The literal that stands for each area unit (also the `value` of its `<option>`). */
  function AreaUnitName(u: AreaUnit): string
  {
    match u
    case Acres => "acres"
    case Hectares => "hectares"
    case Bigha => "bigha"
    case Katha => "katha"
  }

  /** The area unit a literal stands for; any string outside the union has none. */
  function ParseAreaUnit(s: string): (r: Option<AreaUnit>)
    ensures forall u :: r == Some(u) <==> s == AreaUnitName(u)
  {
    if s == "acres" then Some(Acres)
    else if s == "hectares" then Some(Hectares)
    else if s == "bigha" then Some(Bigha)
    else if s == "katha" then Some(Katha)
    else None
  }

  function WaterSourceName(w: WaterSource): string
  {
    match w
    case Rain => "rain"
    case Bore => "bore"
    case Canal => "canal"
    case River => "river"
    case Tank => "tank"
  }

  function ParseWaterSource(s: string): (r: Option<WaterSource>)
    ensures forall w :: r == Some(w) <==> s == WaterSourceName(w)
  {
    if s == "rain" then Some(Rain)
    else if s == "bore" then Some(Bore)
    else if s == "canal" then Some(Canal)
    else if s == "river" then Some(River)
    else if s == "tank" then Some(Tank)
    else None
  }

  function BudgetName(b: Budget): string
  {
    match b
    case Low => "low"
    case Medium => "medium"
    case High => "high"
  }

  function ParseBudget(s: string): (r: Option<Budget>)
    ensures forall b :: r == Some(b) <==> s == BudgetName(b)
  {
    if s == "low" then Some(Low)
    else if s == "medium" then Some(Medium)
    else if s == "high" then Some(High)
    else None
  }

  function SenderName(s: Sender): string
  {
    match s
    case User => "user"
    case Bot => "bot"
  }

  function ParseSender(s: string): (r: Option<Sender>)
    ensures forall x :: r == Some(x) <==> s == SenderName(x)
  {
    if s == "user" then Some(User)
    else if s == "bot" then Some(Bot)
    else None
  }
}
