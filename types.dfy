/**
 * The records declared in types.ts. JavaScript numbers are modelled as
 * `real`; floating-point rounding is not part of this model.
 */
module Types {
  import opened Wrappers

  datatype PaperGrade = Fluting | Testliner | HpFluting | ImitationKraft

  datatype RawMaterialQuality = HighA1 | MediumMixed | LowA3Local

  datatype FiberType = Occ100 | Occ80Mix20 | MixedA3 | KraftNssc

  datatype StarchType = Cationic | Amphoteric | Native | Oxidised

  datatype GlueType = Asa | Akd | Rosin | NoGlue

  /** Process parameters edited in the telemetry form. */
  datatype ProductionTelemetry = ProductionTelemetry(
    grade: PaperGrade,
    grammage: real,
    machineSpeed: real,
    steamPressure: real,
    refiningLoad: real,
    starchDosage: real,
    retentionAgent: real,
    targetCMT: real,
    rawMaterialQuality: RawMaterialQuality,
    fiberType: FiberType,
    starchType: StarchType,
    glueType: GlueType,
    phLevel: real,
    conductivity: real,
    freeness: real,
    ashContent: real,
    moistureContent: real,
    wasteContent: real)

  /** Fixed machine characteristics. */
  datatype MachineConstants = MachineConstants(
    trimWidth: real,
    maxSteamCapacity: real,
    productionEfficiency: real,
    dryerCount: real)

  /** Per-unit prices. */
  datatype UnitCosts = UnitCosts(
    electricityPrice: real,
    steamPrice: real,
    starchPrice: real,
    occPrice: real,
    freshWaterPrice: real)

  datatype Role = User | Model

  /**
   * One chat message. The source also stores a `timestamp`, which only
   * feeds the display and is left out.
   */
  datatype ChatMessage = ChatMessage(id: string, role: Role, content: string)

  /** One bar of the scenario comparison chart. */
  datatype ChartRow = ChartRow(name: string, CMT: real, Maliyet: real, Risk: real)

  datatype WinningScenario = WinningScenario(name: string, reason: string, improvement: string)

  /** The structured reply the language model is asked to produce. */
  datatype SimulationResponse = SimulationResponse(
    markdownReport: string,
    chartData: seq<ChartRow>,
    winningScenario: Option<WinningScenario>)
}
